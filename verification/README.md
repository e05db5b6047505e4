# Verified model of the MTConnect collection and CNC statistics code

The repository collects data from machine tools through an MTConnect agent, stores samples and alarms,
reports on them through a web server and a command line tool, feeds the agent through an SHDR adapter,
and contains a simulator that stands in for a machine. This project models the parts where several
functions have to agree with one another and proves what they agree on.

`dafny verify dfyconfig.toml` checks everything. One module per component:

| module | what it models |
|---|---|
| `Text` | searching, trimming, number parsing with 64-bit saturation |
| `StreamParsing`, `AgentText`, `AgentBlocks`, `AgentDocument` | the incremental parser of agent responses, and what it reads back from the elements, blocks and whole documents an agent prints |
| `Samples`, `WebStats`, `WebProducts`, `WebPoints`, `Shifts`, `Report` | the figures of the web server and of the command line report |
| `Alarms`, `Alerts` | alarm synchronisation with the keyed table, crashes included, and the alert messages |
| `StreamingFetch` | the concurrent save of the history page |
| `ShdrServer`, `Adapters`, `AdapterReadings`, `FaultList` | the SHDR client array, the adapter's change tracking, how a reading reaches the clients, the list of active conditions |
| `CncSim`, `CncMotion` | the simulator's block execution, automatic cycle and commands, in laws over runs and in figures |
| `Placeholders`, `PlaceholderConditions`, `ConfigJson`, `JsonPrint` | SQL placeholder substitution and when it is simultaneous, the configuration reader and the escaping writer |

The main results, hardest first:

* **Chunk independence.** However a response is cut into `feed` calls, the machine states and the last
  sequence number are those of one parse of the whole text; erasing finished blocks never loses or
  invents a header.
* **What an agent prints is what is read.** From a printed document, in any chunks, every block is read into
  its own machine: the last element of each field, the named samples, for every alarm condition the element
  that decides it, the emergency stop the right way round. The next request goes on at the largest number
  printed in the header or in an element that counts.
* **Every view is the same sum.** Interleaved passes, the summary, time buckets, products, shifts and the
  lines of the report are each proved equal to sums over adjacent samples of one machine with a gap of at
  most the configured maximum, or to such a sum minus pairs or buckets that are named exactly. The points of
  an answer, and the windows of the shifts, are given in terms of the rows and of the clock alone.
* **Alarm agreement under crashes.** A synchronisation runs to its end if and only if the process lives for
  exactly counted statements, and may die after any smaller number, each restarted process after a number of
  its own. After any such history one synchronisation at a later second that has enough statements makes
  table, memory and conditions agree, every active row carries its condition's type and state and was last
  seen now, and a row whose alarm is on in every synchronisation keeps its first time stamp from any point of
  the history to its end.
* **All interleavings of the history save** are safe, never stuck and finite, and what a machine answers is
  what the next batch that is stored holds for it.
* **The client view**: after every server turn each connected client, however late it came, has last
  received the current value of every item that has one, and so the last reading of it, to a millionth;
  conditions and messages travel on lines of their own. Over any number of turns nobody else is connected
  than who was there or came, and nobody found dead; everybody else who accepts as many lines as the turns
  can broadcast, which is bounded by a count of items and flushes, stays connected. The departure of the last
  client is reported exactly once.
* **Program completion**: a started program can end exactly when it has an M30 and a positive rate on every
  segment before it; then it ends within a computable number of running ticks, counts one part, and
  pauses change nothing, whether it was started by command or by the automatic cycle. A block is left with
  exactly the tick in which feed, override and time have covered its length.
* **Configuration round trip**: a tree of objects printed with quoted texts, bare words, arrays and any blanks
  is read back as the map of its dotted paths.

## Where the code does less than it seems to

Each of these has a concrete input that shows it, named first, and the exact condition under which the code
does what its comments promise, named second.

* Machining buckets narrower than the gap limit lose seconds: a bucket without a sample is counted but not
  emitted (`WebStats.EmissionLoses`). Emission conserves all totals if and only if the gap limit is at
  most the bucket width (`WebStats.EmissionConservesIff`).
* The report prints a line only for buckets with machining: a minute of power without machining prints
  nothing (`Report.IdleMinute`). Its machining column is the web server's total, its power column falls
  short by exactly the power of the buckets without machining (`Report.PrintedVersusWeb`).
* The report counts parts across samples with an unknown counter, the web server does not: counters 5, −1, 7
  are two parts for one and none for the other (`Report.HiddenTwo`). The figures differ exactly when the
  counter rises across such samples (`Report.ReportVersusWeb`).
* Replacing placeholders from ?63 down to ?1 is not a simultaneous substitution for adjacent placeholders:
  in `?1?20` with ?20 bound to 0 the digit makes ?1 read as ?10, and the text sent is `NULL` instead of
  `NULL0` (`PlaceholderConditions.AdjacentPlaceholders`). For parameters that read back no placeholder it is one
  if and only if no ?n is directly followed by ?m with m > 10 n
  (`PlaceholderConditions.BuildIsSimultaneousIff`).
* A bound text can be read back as a placeholder: in `?1,?2` with ?1 bound to the text `A` and ?2 to the text
  `?1`, `'A',''A''` is sent instead of `'A','?1'` (`PlaceholderConditions.ReadBackText`). A text bound to ?i
  is safe, whatever else is bound, if and only if it has no `?d` with a digit 1 ≤ d < i
  (`PlaceholderConditions.ParameterIff`).
* The product view has 256 entries: a machine that makes n parts and changes its comment each time shows the
  first 256 of them (`WebProducts.ManyComments`). What is missing is exactly what follows a comment without an
  entry, and with at most 256 comments nothing is (`WebProducts.ProductsConserve`).
* An alarm cleared and raised again within one second gets no active row, because its key is taken
  (`Alarms.SameSecondLosesAlarm`); agreement holds if and only if no alarm that is on is blocked so
  (`Alarms.AgreementIff`).
* Shift windows leave out the instants before 08:30 of the first day (`Shifts.FirstMorningUncovered`) and
  everything after 512 days (`Shifts.LateDayUncovered`); what is covered, exactly, is
  `Shifts.ScheduleCovers`.
* Removing from the middle of the condition list drops every node in front of it, because `add` sets no
  back links: removing the second of two nodes leaves an empty list (`FaultList.RemoveSecond`). A removal
  drops exactly one node if and only if it is at the head (`FaultList.RemovesOneIff`), which is the only
  place the drain removes from.
* Control characters other than newline, return and tab come back as spaces from the escaping writer: the
  character 1 does (`JsonPrint.ControlCharacterLost`); nothing else is lost (`JsonPrint.RoundTripIff`).
* Skipping an array counts brackets inside quoted texts as well: the array of the one text `]` is left behind
  that bracket (`JsonPrint.BracketInText`). An array is skipped up to its end, whatever follows, if and only if
  its brackets balance (`JsonPrint.ArraySkippedIff`).
* Only the first condition section of a block is read: what a later one of the same block says changes
  nothing (`AgentBlocks.LaterSectionIgnored`), and an item is set exactly when the first section, or the
  emergency stop behind it, names it (`AgentBlocks.BlockRead`).

One more condition is about programs and not a failure of the code: a rapid or feed segment with a rate that
is not positive, such as a spindle block at another position, is never left (`CncSim.HeldUpForever`). No
command adds a program, and the three built-in ones can always be completed (`CncSim.BuiltInCompletable`).

## Model

| member | source | states |
|---|---|---|
| Text.Trim | mtconnect_collect/tools/mtc_stats.cpp:64-70 | the loop's result is the trimmed text |
| Text.TrimmedShape | mtconnect_collect/tools/mtc_stats.cpp:64-70 | trimming removes blanks at both ends, nothing else, and leaves no blank there |
| Text.FindLeftmost | mtconnect_collect/tools/mtc_stats.cpp:345-349 | a find is an occurrence with none before it, and −1 means there is none |
| Text.FindPrefix | mtconnect_collect/tools/mtc_stats.cpp:265-269 | appending text does not move an occurrence already found |
| Text.FindSuffix | mtconnect_collect/tools/mtc_stats.cpp:352 | erasing a front part shifts what is found behind it and nothing else |
| StreamParsing.NextTagValue | mtconnect_collect/tools/mtc_stats.cpp:119-139 | the loop finds the next complete element of a tag, skipping longer tag names and stopping at an incomplete one |
| StreamParsing.Apply | mtconnect_collect/tools/mtc_stats.cpp:310-319 | a field ends with the trimmed value of the last element of its tag, the sequence number with the maximum seen |
| StreamParsing.ParseConditions | mtconnect_collect/tools/mtc_stats.cpp:206-255 | the loops over the state names and their elements are the update state by state in the fixed name order, then the emergency stop; what that does to a printed block is `AgentBlocks.BlockRead` |
| StreamParsing.StreamParser.ProcessHeader | mtconnect_collect/tools/mtc_stats.cpp:285-297 | the sequence number rises to the largest nextSequence of all complete headers in the buffer |
| StreamParsing.StreamParser.HandleBlock | mtconnect_collect/tools/mtc_stats.cpp:299-339 | one block changes one machine only, agent and nameless blocks change nothing |
| StreamParsing.StreamParser.Process | mtconnect_collect/tools/mtc_stats.cpp:341-356 | all complete blocks are handled in order and exactly the text behind the last one stays |
| StreamParsing.StreamParser.Feed | mtconnect_collect/tools/mtc_stats.cpp:265-269 | buffer, states and sequence number after a chunk are those of the old buffer and the chunk joined |
| StreamParsing.StreamParser.Finish | mtconnect_collect/tools/mtc_stats.cpp:271-275 | a last pass, then an empty buffer |
| StreamParsing.BlocksConcat | mtconnect_collect/tools/mtc_stats.cpp:341-356 | the blocks of a joined text are those of the first part, then those of its remainder joined with the second |
| StreamParsing.RestCut | mtconnect_collect/tools/mtc_stats.cpp:345-353 | what is erased ends in `>`, so no header tag straddles the cut |
| StreamParsing.HeadersConcat | mtconnect_collect/tools/mtc_stats.cpp:285-356 | scanning the remainder again after each chunk finds the same largest nextSequence as scanning the whole text |
| StreamParsing.CutAnywhere | mtconnect_collect/tools/mtc_stats.cpp:261-357 | cutting a text anywhere changes neither states, sequence number nor remainder |
| StreamParsing.FinishAddsNothing | mtconnect_collect/tools/mtc_stats.cpp:271-275 | a finish after a feed finds no block and no higher number |
| StreamParsing.ParseDocument | mtconnect_collect/tools/mtc_stats.cpp:360-366 | one-shot parse: the states and number of all blocks and headers of the document |
| StreamParsing.StreamResponse | mtconnect_collect/tools/mtc_stats.cpp:760-778 | any sequence of chunks followed by a finish gives what the one-shot parse of their concatenation gives |
| AgentText.ScanReadsPrint | mtconnect_collect/tools/mtc_stats.cpp:119-139 | scanning any list of printed elements returns exactly those of the tag, in order, with value and head |
| AgentText.LastPrintedWins | mtconnect_collect/tools/mtc_stats.cpp:310-325 | after a printed list, a field holds the trimmed value of the last element of its tag |
| AgentBlocks.BlockHits | mtconnect_collect/tools/mtc_stats.cpp:119-139 | scanning a printed block for a tag the parser reads gives its elements of that name in order, whatever component tags, other elements and conditions stand around them |
| AgentBlocks.SampleFound | mtconnect_collect/tools/mtc_stats.cpp:142-156 | the named sample of a printed block is the first element that carries the name among its attributes, with its value and its opening tag |
| AgentBlocks.PrintedMarksRead | mtconnect_collect/tools/mtc_stats.cpp:206-245 | scanning printed condition elements for one state gives the elements of that state in order, with any attributes, closed at once or around a text |
| AgentBlocks.SectionSets | mtconnect_collect/tools/mtc_stats.cpp:206-245 | each item ends with the type and the state of its last element of the highest state (NORMAL, WARNING, FAULT, FAILED, UNAVAILABLE), FAULT standing for a missing type; items without an element, and elements without an item, change nothing |
| AgentBlocks.EstopRead | mtconnect_collect/tools/mtc_stats.cpp:246-254 | TRIGGERED makes the emergency stop an alarm, ARMED makes it normal, anything else leaves it, and no other item changes |
| AgentBlocks.BlockRead | mtconnect_collect/tools/mtc_stats.cpp:299-339 | reading a printed block gives its machine the trimmed last value of each of the five fields, the number of partTotal, the trimmed tmMode and the conditions of its section and emergency stop; what is not printed stays |
| AgentBlocks.StatesRead | mtconnect_collect/tools/mtc_stats.cpp:299-339 | a printed block changes its own machine as printed, enters it when new, and changes no other |
| AgentBlocks.FirstSeen | mtconnect_collect/tools/mtc_stats.cpp:303-308 | a machine seen for the first time gets its name and no texts, counter or conditions; another one is as it was |
| AgentBlocks.LaterSectionIgnored | mtconnect_collect/tools/mtc_stats.cpp:206-212 | a second condition section in the same block does not change what is read |
| AgentBlocks.AlarmsRead | mtconnect_collect/tools/mtc_stats.cpp:198-255 | after a printed block the emergency stop is an alarm if triggered and none if armed, and an item is an alarm exactly when the element that decides it is a warning, fault or failure |
| AgentDocument.NumeralRoundTrip | mtconnect_collect/tools/mtc_stats.cpp:72-78 | a printed number, negative or not, with blanks in front and anything but a digit behind, is read back, held at the ends of 64 bits |
| AgentDocument.NoNumber | mtconnect_collect/tools/mtc_stats.cpp:72-78 | an empty text and one that starts with a letter, such as UNAVAILABLE, give −1 |
| AgentDocument.SequenceRead | mtconnect_collect/tools/mtc_stats.cpp:133 | the sequence number of an element is the one it is printed with |
| AgentDocument.BlockNumber | mtconnect_collect/tools/mtc_stats.cpp:310-335 | a block is read to the largest number among the elements of the five fields and the two samples |
| AgentDocument.DocumentNumber | mtconnect_collect/tools/mtc_stats.cpp:285-356 | a document is read to the larger of the nextSequence its header is printed with and the largest number of its blocks |
| AgentDocument.ReadDocument | mtconnect_collect/tools/mtc_stats.cpp:760-778 | a printed document in any chunks: the states change block by block as printed, the agent's own block changes nothing, and the next request goes on at the header's number or at a higher one of the blocks |
| Samples.MixedPassIsFleet | mtconnect_collect/src/webserver/webserver.cpp:316-341 | an interleaved pass with one previous sample per machine equals the per-machine adjacent sums added over all machines, for any measure |
| Samples.PassIsAdjSum | mtconnect_collect/src/webserver/webserver.cpp:149-161 | a pass that skips other machines equals the sum over adjacent samples of the machine's own list |
| WebStats.SecondsInRange | mtconnect_collect/src/webserver/webserver.cpp:149-176 | machining and power seconds are sums over adjacent samples of the machine, or of all rows as one list for an empty name, with a gap within the limit |
| WebStats.ProducedInRange | mtconnect_collect/src/webserver/webserver.cpp:271-281 | production is the sum of the rises between adjacent samples of the machine |
| WebStats.CollectMachines | mtconnect_collect/src/webserver/webserver.cpp:224-233 | exactly the machines of the rows, each once |
| WebStats.ScanMachine | mtconnect_collect/src/webserver/webserver.cpp:255-267 | sample and machining counts, first and last known counter and the latest sample of one machine |
| WebStats.ApiSummary | mtconnect_collect/src/webserver/webserver.cpp:245-305 | one item per machine of the rows with its seconds, production and counts; the production column adds up to the fleet's, and so do both columns of seconds when no machine has an empty name |
| WebStats.TotalsAreFleet | mtconnect_collect/src/webserver/webserver.cpp:245-305 | any list of items with the right figures adds up to the fleet figure of its names, column by column |
| WebStats.UtilisationAtMostOne | mtconnect_collect/src/webserver/webserver.cpp:282-283 | machining ≤ power ≤ last minus first time stamp, so the utilisation never exceeds one and the clamp never fires |
| WebStats.SplitInterval | mtconnect_collect/src/webserver/webserver.cpp:319-335 | splitting an interval at bucket edges adds to every bucket exactly its overlap with the interval |
| WebStats.ApiMachining | mtconnect_collect/src/webserver/webserver.cpp:307-348 | the emitted points are the buckets holding a sample, each with the seconds of all machines inside it |
| WebStats.BucketsConserveSeconds | mtconnect_collect/src/webserver/webserver.cpp:307-348 | bucket seconds add up to the per-machine totals added over machines, for every width |
| WebStats.EmissionLoses | mtconnect_collect/src/webserver/webserver.cpp:336-346 | for every width below the gap limit, a concrete pair of samples whose middle bucket is not emitted |
| WebStats.EmissionConservesIff | mtconnect_collect/src/webserver/webserver.cpp:307-348 | emitted points conserve all totals for all rows if and only if the gap limit is at most the width |
| WebStats.BucketBound | mtconnect_collect/src/webserver/webserver.cpp:319-335 | in one bucket a machine's machining seconds ≤ power seconds ≤ bucket length |
| WebProducts.ApiProduction | mtconnect_collect/src/webserver/webserver.cpp:350-383 | the emitted points are the buckets with a known counter, with rises and first and last counter values |
| WebProducts.ProductionConserved | mtconnect_collect/src/webserver/webserver.cpp:350-383 | emitted production adds up to the summary production of all machines, for every width |
| WebProducts.ApiProducts | mtconnect_collect/src/webserver/webserver.cpp:385-439 | one entry per listed comment with the seconds and rises booked on the earlier sample's comment |
| WebProducts.AllListed | mtconnect_collect/src/webserver/webserver.cpp:396-405 | with at most 256 distinct comments all are listed |
| WebProducts.ProductsConserve | mtconnect_collect/src/webserver/webserver.cpp:385-439 | product seconds and production add up to the summary totals of all machines minus what follows a comment without an entry; with at most 256 distinct comments nothing is missing |
| WebProducts.ManyComments | mtconnect_collect/src/webserver/webserver.cpp:396-405 | a machine that makes n parts under n different comments: the summary has n, the product view the smaller of n and 256 |
| WebPoints.PairFigures | mtconnect_collect/src/webserver/webserver.cpp:149-176 | a pair of adjacent samples counts its seconds if the first has power, or runs in automatic mode with power, and the two are at most the gap apart; in a bucket it counts those seconds that lie in it; and it counts the rise of two known counters where the later sample lies |
| WebPoints.CountIsSize | mtconnect_collect/src/webserver/webserver.cpp:312-318 | the two counts of a point are the numbers of samples, and of machining samples, in its bucket |
| WebPoints.MachiningAnswer | mtconnect_collect/src/webserver/webserver.cpp:307-348 | the points start at multiples of the width in rising order, each bucket with a sample has one and no other has, and each point has its bucket's counts and seconds |
| WebPoints.ProductionAnswer | mtconnect_collect/src/webserver/webserver.cpp:350-383 | the same for production: one point for each bucket with a known counter and no other, with the bucket's first and last known counter and its rises |
| Shifts.BuildShifts | mtconnect_collect/src/webserver/webserver.cpp:484-534 | the loop yields the calendar's windows day by day; in every window a second belongs to the day shift exactly from 08:30 to 20:30, and start and end are the whole shift 08:30-20:30, 20:30-08:30, or 08:30-17:00 on Sunday |
| Shifts.ScheduleRight | mtconnect_collect/src/webserver/webserver.cpp:505-528 | the same of the calendar: the flag, the window and the whole shift of every entry in seconds of the local day |
| Shifts.ScheduleCovers | mtconnect_collect/src/webserver/webserver.cpp:484-534 | an instant lies in a window if and only if it is in the range, not before 08:30 of the first day, within 512 days, and not in Sunday 17:00 to Monday 08:30 |
| Shifts.FirstMorningUncovered | mtconnect_collect/src/webserver/webserver.cpp:493-512 | 07:00 of the first day of a query lies in no window |
| Shifts.LateDayUncovered | mtconnect_collect/src/webserver/webserver.cpp:494-499 | noon of the 513th day of a query over 600 days lies in no window |
| Shifts.ScheduleOrdered | mtconnect_collect/src/webserver/webserver.cpp:484-534 | windows are non-empty, inside the range and their shift, ordered and disjoint |
| Shifts.ShiftAggregate | mtconnect_collect/src/webserver/webserver.cpp:543-601 | the machines with a sample in the window, each once, with the figures of a pass over the window's samples; the fleet is their sum |
| Shifts.WindowPassIsWithin | mtconnect_collect/src/webserver/webserver.cpp:552-571 | a pass over a window's samples equals the full pass restricted to pairs inside the window |
| Shifts.FleetOfWindow | mtconnect_collect/src/webserver/webserver.cpp:589-596 | fleet figures of a window are the interleaved sums over pairs inside it |
| Shifts.ShiftsConserve | mtconnect_collect/src/webserver/webserver.cpp:484-601 | over all windows a figure is the whole-range total, of one machine or of the fleet, minus exactly the adjacent pairs that do not lie in one window |
| Shifts.ApiShifts | mtconnect_collect/src/webserver/webserver.cpp:603-659 | one entry per window of the calendar with the aggregate of that window |
| Shifts.AnswerConserves | mtconnect_collect/src/webserver/webserver.cpp:603-659 | the fleet figures of an answer add up to the range totals of the same machines minus exactly the adjacent pairs that no window holds |
| Shifts.ShiftUtilisation | mtconnect_collect/src/webserver/webserver.cpp:626-649 | in every entry machining ≤ power for each machine and for the fleet, so no utilisation exceeds one and neither clamp fires |
| Report.SameMachineRows | mtconnect_collect/tools/mtc_stats.cpp:883-884 | sorting by machine and time gives every machine the same sample list as sorting by time |
| Report.MachineBuckets | mtconnect_collect/tools/mtc_stats.cpp:930-958 | the tables hold, for every bucket, the machine's machining and power seconds and machining samples; their keys are bucket starts with a positive entry and nothing else |
| Report.EntriesWithin | mtconnect_collect/tools/mtc_stats.cpp:930-958 | every key lies between the bucket of the machine's first and of its last sample |
| Report.PrintBuckets | mtconnect_collect/tools/mtc_stats.cpp:959-972 | the loop over the table prints, in ascending order, one line for each bucket with machining seconds and no other |
| Report.ReportMachine | mtconnect_collect/tools/mtc_stats.cpp:930-972 | from the rows to the lines of one machine |
| Report.PrintedVersusWeb | mtconnect_collect/tools/mtc_stats.cpp:930-972 | printed machining is the web server's total; printed power is the web server's minus the power of buckets without machining, and equal if and only if there are none |
| Report.IdleMinute | mtconnect_collect/tools/mtc_stats.cpp:959-960 | two samples a minute apart, power on and not machining: no line, while the web server reports 60 seconds of power |
| Report.ReportSecondsAgree | mtconnect_collect/tools/mtc_stats.cpp:930-958 | seconds of all buckets, printed or not, add up to the web server's total for the machine |
| Report.ProducedOf | mtconnect_collect/tools/mtc_stats.cpp:978-993 | first and last known counter and the production over the samples with a known counter |
| Report.ProductSegments | mtconnect_collect/tools/mtc_stats.cpp:998-1019 | the segments are the maximal runs of equal comments among the samples with a known counter, each with its comment, first and last counter and rises |
| Report.SegmentsAddUp | mtconnect_collect/tools/mtc_stats.cpp:998-1019 | segments add up to the production figure, neighbours have different comments, none is negative |
| Report.ReportProducts | mtconnect_collect/tools/mtc_stats.cpp:998-1025 | printed are exactly the segments with a comment and with parts, in order |
| Report.ProductsVersusProduction | mtconnect_collect/tools/mtc_stats.cpp:998-1025 | printed product figures add up to the production minus the parts without a comment, and to all of it if and only if there are none |
| Report.ReportIsWebPlusHidden | mtconnect_collect/tools/mtc_stats.cpp:978-989 | the report's figure is the web's plus the rises across unknown counters |
| Report.ReportVersusWeb | mtconnect_collect/tools/mtc_stats.cpp:978-989 | never below the web's figure, and equal if and only if no rise is hidden |
| Report.HiddenTwo | mtconnect_collect/tools/mtc_stats.cpp:978-989 | counters 5, −1, 7: two parts in the report, none on the web page |
| Report.AgreeWhenKnown | mtconnect_collect/tools/mtc_stats.cpp:978-989 | equal when every counter is known |
| Alarms.AlarmDb.AlarmUpsert | mtconnect_collect/src/db/stats_db.cpp:138-166 | updates the active row or inserts a new one, with the key conflict; it takes one statement for an active row and two otherwise, succeeds exactly when the process has them left, and a crash may fall between the two |
| Alarms.AlarmDb.AlarmClear | mtconnect_collect/src/db/stats_db.cpp:168-180 | closes the active row, exactly when the process has a statement left |
| Alarms.AlarmDb.PruneAlarms | mtconnect_collect/src/db/stats_db.cpp:182-197 | deletes closed rows that ended before the cutoff, exactly when the process has a statement left |
| Alarms.OneActive | mtconnect_collect/src/db/stats_db.cpp:16-25 | in a history of the right shape an item has at most one active row, and it is the latest |
| Alarms.PrunedKeepsActive | mtconnect_collect/src/db/stats_db.cpp:182-197 | pruning drops exactly the closed rows that ended before the cutoff, so every active row stays, and so does the shape |
| Alarms.SyncAlarms | mtconnect_collect/tools/mtc_stats.cpp:538-571 | it runs to its end if and only if the process has one statement left per active condition with an active row, two per other active condition and one per remembered condition that is off; then active rows and memory are exactly the active conditions (rows blocked in this second excepted), every active row has its condition's type and state and was last seen now, and a row whose alarm has gone off ends now; cut short, no first time stamp is lost, no alarm that is on is closed, and whatever row was written carries its condition's type and state |
| Alarms.AgreementIff | mtconnect_collect/tools/mtc_stats.cpp:538-571 | table and conditions agree if and only if no alarm that is on is blocked by a row closed in this second |
| Alarms.LaterClockNeverBlocks | mtconnect_collect/src/db/stats_db.cpp:155-165 | with a strictly later clock nothing is blocked |
| Alarms.SameSecondLosesAlarm | mtconnect_collect/src/db/stats_db.cpp:138-180 | raise, clear and raise within one second leaves no active row |
| Alarms.SeedActiveAlarms | mtconnect_collect/tools/mtc_stats.cpp:574-581 | memory becomes exactly the active rows |
| Alarms.CrashAndRecover | mtconnect_collect/tools/mtc_stats.cpp:538-581 | a crash at any statement, seeding and one synchronisation with enough statements restore agreement, keep the rows of alarms on both times, leave every active row with its condition's type and state, last seen now, and close every row whose alarm went off |
| Alarms.RunEvent | mtconnect_collect/tools/mtc_stats.cpp:538-581 | one event of a run: the shape stays, only known alarms are active or remembered, an active row whose alarm is on stays, and the process is up afterwards if it has the statements the event needs |
| Alarms.RunHistory | mtconnect_collect/src/db/stats_db.cpp:138-197 | over every run of synchronise, prune and restart from any table of the right shape, each process dying after a number of statements of its own: the history keeps its shape (one active row per item and the latest, rows apart, first ≤ last, closed rows end when last seen); a row active at the start whose alarm is on in every synchronisation is still there and active; a process given enough statements is still up |
| Alarms.RunThenSync | mtconnect_collect/tools/mtc_stats.cpp:538-581 | after any such run, a synchronisation at a later second that has enough statements runs to its end and makes table, memory and conditions agree, and rows whose alarms were on all along are kept; every active row then carries its condition's type and state and was last seen now |
| Alarms.ParserKeepsNames | mtconnect_collect/tools/mtc_stats.cpp:304-308 | whatever is parsed, each machine stays filed under its own name, as the synchronisation needs |
| Alerts.AlertTracker.CheckMachine | mtconnect_collect/tools/mtc_stats.cpp:661-683 | an off machine has had an alarm now or less than the interval ago, an on machine none; the trace stays in order |
| Alerts.AlertTracker.CheckAgent | mtconnect_collect/tools/mtc_stats.cpp:684-691 | the agent's channel likewise |
| Alerts.AlertTracker.Check | mtconnect_collect/tools/mtc_stats.cpp:658-692 | all machines and the agent are up to date, the fields are exactly the channel states of the messages sent |
| Alerts.RunAlerts | mtconnect_collect/tools/mtc_stats.cpp:652-693 | over every run each channel is (down, still down at least the interval apart, back) repeated, and after the last round every machine in it and the agent have been reported as found; switched off, nothing is sent |
| StreamingFetch.StepKeepsInv | src/imgui_ui/core/StreamingData.hpp:12-31 | every atomic step of owner, workers and watcher keeps the invariant tying counters, flag and slots |
| StreamingFetch.EveryScheduleIsSafe | src/imgui_ui/core/StreamingData.hpp:12-52 | over every interleaving: 0 ≤ completed ≤ total, loading is false only with all results in place and cleared by exactly one worker, stored batches are complete |
| StreamingFetch.FetchIsStored | src/imgui_ui/viewmodel/HistoryVm.cpp:34-73 | what a machine answers to its worker, at any time of a save and whatever steps follow, is what the next batch that is stored holds for it |
| StreamingFetch.ReadTwice | src/imgui_ui/core/StreamingData.hpp:52 | two separate loads of total and remaining, whatever workers and watcher do in between, give the progress at the second load, between the earlier progress and the total |
| StreamingFetch.ReadAcrossStart | src/imgui_ui/core/StreamingData.hpp:12-20 | with a start of two machines between the loads the difference is minus two, which is why only the starting thread may read |
| StreamingFetch.SingleFlight | src/imgui_ui/viewmodel/HistoryVm.cpp:17-19 | a second start changes nothing while one is under way, and only then |
| StreamingFetch.StepDescends | src/imgui_ui/viewmodel/HistoryVm.cpp:17-74 | every step of a save lowers a rank, so none goes on for ever |
| StreamingFetch.NeverStuck | src/imgui_ui/viewmodel/HistoryVm.cpp:58-73 | until the flag is free some step is enabled |
| StreamingFetch.SaveCompletes | src/imgui_ui/viewmodel/HistoryVm.cpp:17-74 | from every reachable state the save can be finished within its rank |
| ShdrServer.Server.AddClient | mtconnect_collect/src/server.cpp:266-277 | appends while there is room, otherwise changes nothing |
| ShdrServer.Server.RemoveClient | mtconnect_collect/src/server.cpp:241-264 | removes exactly the client, the others keep their order; an unknown client changes nothing |
| ShdrServer.Server.SendToClient | mtconnect_collect/src/server.cpp:180-184 | a failed write removes the client, a successful one adds the line |
| ShdrServer.Server.SendToClients | mtconnect_collect/src/server.cpp:186-190 | backward broadcast: survivors in order, each with the line exactly once, nobody else with anything |
| ShdrServer.Server.ReadFromClients | mtconnect_collect/src/server.cpp:109-178 | exactly the clients found dead are removed, the others keep their order |
| ShdrServer.SurvivorsAre | mtconnect_collect/src/server.cpp:180-190 | the survivors are the clients that still accepted a line |
| Adapters.Datum.SetValue | mtconnect_collect/src/device_datum.cpp:98-108 | a differing reading is stored and flagged, a negligible one ignored; without a flag nothing has changed |
| Adapters.Datum.SetUnavailable | mtconnect_collect/src/device_datum.cpp:117-166 | the item shows unavailable; flag-carrying kinds do not count as having a value |
| Adapters.AfterSending | mtconnect_collect/src/device_datum.cpp:55-61 | sending an item makes a view current for it and disturbs no other item |
| Adapters.ChangedStaysSynced | mtconnect_collect/src/device_datum.cpp:98-108 | a rewritten and flagged item does not spoil a view |
| Adapters.Adapter.SendBuffer | mtconnect_collect/src/adapter.cpp:154-162 | the pending line goes out, no view changes, no healthy client is lost |
| Adapters.Adapter.SendDatum | mtconnect_collect/src/adapter.cpp:144-151 | every client's view grows by exactly this item; the flag is cleared; a condition or a message goes out on a line of its own |
| Adapters.Adapter.SendChangedData | mtconnect_collect/src/adapter.cpp:182-191 | afterwards nothing is flagged or pending, values are untouched, views stay in step |
| Adapters.Adapter.SendInitialData | mtconnect_collect/src/adapter.cpp:165-179 | the late client and all others are in step; the items hold what the readings say |
| Adapters.Adapter.GatherDeviceData | mtconnect_collect/src/adapter.cpp:193-217 | a sweep with flushes keeps the views in step, drops only clients that fail a write and leaves exactly the values its readings say; with flushing disabled nothing is sent |
| Adapters.Adapter.Turn | mtconnect_collect/src/adapter.cpp:89-136 | after a turn every client has last received the current value of every item that has one; a newcomer gets in while there is room; nobody found dead stays, a newcomer of this turn included, and nobody else is dropped without a failed write; the items hold what was read; the last client's departure is reported once; the lines sent are bounded by items and flushes, and a client accepts as many fewer as it received |
| Adapters.Serve | mtconnect_collect/src/adapter.cpp:89-136 | over any number of turns, given who connects and who is found dead in each: exactly one client came for every connection that got a slot, and every connection got one unless all could be taken; who is connected was there or came and was never found dead; everybody else of these who accepted more lines than the turns since can broadcast is connected; a turn was swept while anybody now connected was there, and only with somebody there; views are current and the items hold what the readings say |
| AdapterReadings.StoredWhen | mtconnect_collect/src/device_datum.cpp:98-187 | a reading is stored when the item has no value or is unavailable, or differs: beyond a millionth for samples and positions, at all for the other kinds |
| AdapterReadings.LostShows | mtconnect_collect/src/device_datum.cpp:117-207 | an unreachable device leaves every kind showing UNAVAILABLE, and gives a value to the kinds without a flag only |
| AdapterReadings.LastReadingCounts | mtconnect_collect/src/adapter.cpp:193-217 | of the readings of a sweep the last one about an item decides what is held of it: the value it reports, or unavailable |
| AdapterReadings.ReadingArrives | mtconnect_collect/src/adapter.cpp:89-217 | after a sweep every connected client was last sent what the last reading of an item says |
| AdapterReadings.LastSweepArrives | mtconnect_collect/src/adapter.cpp:89-217 | the same at the end of any run of turns |
| FaultList.Condition.SetValue | mtconnect_collect/src/device_datum.cpp:536-563 | level, code, qualifier, severity and text are stored; the result is the pending flag: set before, or some part differed |
| FaultList.ConditionList.Add | mtconnect_collect/src/condition_list.cpp:15-22 | the condition comes first, the rest stays; no back link is set |
| FaultList.Iterator.Next | mtconnect_collect/src/condition_list.hpp:71-80 | moves to the next node of the list |
| FaultList.Iterator.Remove | mtconnect_collect/src/condition_list.hpp:97-113 | removes the current node if it is at the head or has a back link, otherwise everything in front of it too |
| FaultList.RemovesOneIff | mtconnect_collect/src/condition_list.hpp:97-113 | without back links a removal drops exactly one node if and only if it is the head |
| FaultList.RemoveSecond | mtconnect_collect/src/condition_list.hpp:97-113 | two conditions added and the second node removed: the list is empty |
| FaultList.FanucConditions.TranslateAlarmNo | mtconnect_collect/src/fanuc/fanuc_adapter.cpp:655-700 | every alarm number stands for a registered condition, which one is stated by `AlarmNumbers` |
| FaultList.FanucConditions.AlarmNumbers | mtconnect_collect/src/fanuc/fanuc_adapter.cpp:655-700 | for each condition the numbers, on an axis and off the axes, that stand for it and no other: 0 and 19 logic, 2 and 7 communication, 3, 8 and 12 motion, 9 spindle, 4 to 6 the axis or system and servo, all others system |
| FaultList.FanucConditions.WordRaises | mtconnect_collect/src/fanuc/fanuc_adapter.cpp:702-730 | an alarm word raises logic, communication, motion and spindle exactly by their own bits with an alarm to read, and the system by every other bit from 10 to 30 |
| FaultList.FanucConditions.RaiseAlarm | mtconnect_collect/src/fanuc/fanuc_adapter.cpp:719-728 | the condition goes to fault with the alarm's texts and is on the list; no other level changes |
| FaultList.FanucConditions.GetCondition | mtconnect_collect/src/fanuc/fanuc_adapter.cpp:702-741 | a zero word empties the list and leaves no fault; any other word puts exactly the conditions of its alarms at fault |
| FaultList.FanucConditions.Drain | mtconnect_collect/src/fanuc/fanuc_adapter.cpp:732-740 | the head-removing loop ends with an empty list and exactly the listed conditions at normal |
| FaultList.FanucConditions.SetAll | mtconnect_collect/src/fanuc/fanuc_adapter.cpp:412-425 | connecting or losing the device sets every condition and keeps the list invariant |
| FaultList.RunFaults | mtconnect_collect/src/fanuc/fanuc_adapter.cpp:702-741 | over every run of polls, sendings and connections each condition at fault is on the list |
| CncSim.Simulator.EnterBlock | mtconnect_collect/tools/cnc_sim.c:591-607 | a block index outside the program changes nothing, otherwise a segment starts where the machine stands |
| CncSim.Simulator.UpdateProductIndex | mtconnect_collect/tools/cnc_sim.c:283-296 | the stepwise index is the product of the part count with the C language's division |
| CncSim.Simulator.SimStep | mtconnect_collect/tools/cnc_sim.c:609-760 | one tick of spindle, segment and M30 |
| CncSim.Simulator.AutoCycleTick | mtconnect_collect/tools/cnc_sim.c:764-809 | one step of the automatic cycle, waiting times in 64 bits |
| CncSim.Simulator.Apply | mtconnect_collect/tools/cnc_sim.c:982-1124 | the run commands, refused only for start and resume in an emergency stop |
| CncSim.Simulator.Turn | mtconnect_collect/tools/cnc_sim.c:1676-1686 | one turn of the main loop is the cycle step followed by the tick |
| CncSim.StartBeginsRun | mtconnect_collect/tools/cnc_sim.c:1017-1036 | a start command begins a run from home, the automatic cycle one from where the machine stands |
| CncSim.PauseKeepsPlace | mtconnect_collect/tools/cnc_sim.c:764-809 | nothing but a tick of the running machine changes its place or its counters |
| CncSim.MoveGoesOn | mtconnect_collect/tools/cnc_sim.c:691-740 | a tick stays on a block or enters the next one exactly where the last one ended |
| CncSim.FinishCountsOne | mtconnect_collect/tools/cnc_sim.c:691-711 | M30 adds one to all three counters, makes the product that of the part just counted, ten parts a product, and leaves the machine ready at home |
| CncSim.RunVisitsInOrder | mtconnect_collect/tools/cnc_sim.c:609-740 | over every run the lines follow one another up to M30, and a finished run has counted exactly one part |
| CncSim.RankDescends | mtconnect_collect/tools/cnc_sim.c:713-740 | no event raises the bound on the ticks still needed, every counted tick lowers it |
| CncSim.FinishesWithinRank | mtconnect_collect/tools/cnc_sim.c:691-740 | a run that is not over has had fewer counted ticks than the bound, however it was paused |
| CncSim.StartedRunCompletes | mtconnect_collect/tools/cnc_sim.c:591-740 | with enough counted ticks a started program has completed, whatever holds, stops, alarms and overrides came between |
| CncSim.CycledRunCompletes | mtconnect_collect/tools/cnc_sim.c:764-809 | a program begun by the automatic cycle is never dropped by its interruptions and completes with enough counted ticks |
| CncSim.HeldUpForever | mtconnect_collect/tools/cnc_sim.c:713-740 | a segment without a positive rate is never left |
| CncSim.CompletesIff | mtconnect_collect/tools/cnc_sim.c:591-740 | a started program can end if and only if it has an M30 and a positive rate on every segment before it |
| CncSim.WellFormedCompletable | mtconnect_collect/tools/cnc_sim.c:591-740 | a program whose moves in front of M30 are rapid, have a positive feed or stay in place can end from anywhere |
| CncSim.BuiltInCompletable | mtconnect_collect/tools/cnc_sim.c:163-230 | each of the three built-in programs can end from anywhere |
| CncSim.PausesChangeNothing | mtconnect_collect/tools/cnc_sim.c:764-809 | taking all pauses out of a run leaves the machine in the same place |
| CncSim.RampCloses | mtconnect_collect/tools/cnc_sim.c:613-625 | the spindle closes its gap by the step and never overshoots |
| CncMotion.TickMoves | mtconnect_collect/tools/cnc_sim.c:713-740 | a tick of dt seconds on a segment longer than a billionth adds feed × override × dt / 6000 to what is done of it, 6000 being the feed of a rapid move, and stands there; with that at the length or beyond, or on a shorter segment, it enters the next block from the end |
| CncMotion.TickShows | mtconnect_collect/tools/cnc_sim.c:613-640 | in a tick the spindle nears its speed by 2500 dt and meets it; the feed shown is that of the block times override, and zero on a machine that stands, of which nothing else changes |
| CncMotion.EnteringSetsSpindle | mtconnect_collect/tools/cnc_sim.c:605-606 | the spindle speed is set by entering a spindle block and by no other |
| CncMotion.GainsAddUp | mtconnect_collect/tools/cnc_sim.c:713-740 | ticks of any lengths whose way together is short of the segment add up on it |
| CncMotion.BlockTakes | mtconnect_collect/tools/cnc_sim.c:713-740 | a block is left with exactly the tick in which the ways of all ticks on it reach its length |
| CncMotion.EvenTicks | mtconnect_collect/tools/cnc_sim.c:713-740 | at one override and ticks of dt a block of length d takes the least n with n × dt × feed × override / 6000 ≥ d |
| CncMotion.CycleActs | mtconnect_collect/tools/cnc_sim.c:764-809 | the automatic cycle acts once 2, 10, 3 and 3 seconds of ready, active, interrupted and stopped are over, never before, in an emergency stop or when switched off, and makes of them active from line 0, interrupted, active, and ready at home |
| CncMotion.PowerUpRuns | mtconnect_collect/tools/cnc_sim.c:764-782 | a machine just switched on runs its program from home after two seconds |
| CncMotion.StartRuns | mtconnect_collect/tools/cnc_sim.c:1017-1036 | start runs the program from home with alarm and spindle off, in automatic mode, or nothing in an emergency stop |
| CncMotion.HoldThenResume | mtconnect_collect/tools/cnc_sim.c:1037-1065 | hold and stop make a running machine stand where it is, and resume lets it run on from there exactly in automatic mode |
| CncMotion.ResumeIff | mtconnect_collect/tools/cnc_sim.c:1053-1065 | resume lets exactly the held and stopped machines run that are in automatic mode without emergency stop, at the same place |
| CncMotion.ResetGoesHome | mtconnect_collect/tools/cnc_sim.c:1066-1086 | reset goes home to the first line and forgets the alarm and the parts of this order, no other count |
| CncMotion.ModeAndAlarm | mtconnect_collect/tools/cnc_sim.c:1103-1294 | a mode is set and stops the program; an alarm interrupts a run where it is; the override is held between 0 and 200 |
| CncMotion.CommandTakesOver | mtconnect_collect/tools/cnc_sim.c:1014-1015 | every command but that of the cycle itself ends the automatic cycle |
| CncMotion.EstopStops | mtconnect_collect/tools/cnc_sim.c:1087-1102 | the emergency stop stops a run where it is, its release makes the machine ready |
| CncMotion.EstopHolds | mtconnect_collect/tools/cnc_sim.c:609-1124 | from an emergency stop to its release no cycle, tick or command moves the machine or counts a part; only a reset takes it home |
| Placeholders.ReplaceAll | mtconnect_collect/src/db/db_mysql.cpp:123-127 | the in-place loop is one left-to-right substitution that does not look at replaced text again |
| Placeholders.Build | mtconnect_collect/src/db/db_mysql.cpp:115-130 | the 63 passes from ?63 down to ?1 |
| Placeholders.PassIsSub | mtconnect_collect/src/db/db_mysql.cpp:123-127 | a text pass on a printed template is a pass on its placeholders, misread ones included |
| Placeholders.BuildIsPasses | mtconnect_collect/src/db/db_mysql.cpp:115-130 | the same for all passes |
| PlaceholderConditions.BuildIsSimultaneousIff | mtconnect_collect/src/db/db_mysql.cpp:114-130 | for templates without a digit behind a placeholder: equal to replacing all at once, for all bound numbers and quoted texts that read back no placeholder, if and only if no ?n is directly followed by ?m with m > 10 n |
| PlaceholderConditions.EveryNumber | mtconnect_collect/src/db/db_mysql.cpp:114-130 | each of ?1 to ?63 is replaced by what is bound to it, or NULL |
| PlaceholderConditions.NoHigherNumber | mtconnect_collect/src/db/db_mysql.cpp:117 | ?64 is ?6 and a digit |
| PlaceholderConditions.AdjacentPlaceholders | mtconnect_collect/src/db/db_mysql.cpp:114-130 | ?1?20 with ?20 bound to 0 becomes NULL, at once it would be NULL0 |
| PlaceholderConditions.ParameterIff | mtconnect_collect/src/db/db_mysql.cpp:83-130 | a quoted text bound to ?i arrives, whatever else is bound, if and only if it has no question mark followed by a digit from 1 to i−1 |
| PlaceholderConditions.ReadBack | mtconnect_collect/src/db/db_mysql.cpp:83-130 | in no harmless template with ?2 does the text '?1' bound to it always arrive |
| PlaceholderConditions.ReadBackText | mtconnect_collect/src/db/db_mysql.cpp:83-130 | ?1,?2 with ?1 bound to 'A' and ?2 to '?1' becomes 'A',''A'', at once it would be 'A','?1' |
| ConfigJson.JsonParser.SkipWs | mtconnect_collect/src/config.cpp:76-79 | skips exactly the blanks, never past the terminator |
| ConfigJson.JsonParser.ParseString | mtconnect_collect/src/config.cpp:81-105 | reads a quoted string with its escapes; an unterminated one ends at the terminator; no quote is an error and moves nothing |
| ConfigJson.JsonParser.ParseValue | mtconnect_collect/src/config.cpp:107-136 | stores a leaf, skips an array or descends into an object, the cursor never passing the terminator; what of each kind of value is stored is `JsonPrint.TreeReadsBack` |
| ConfigJson.JsonParser.ParseObject | mtconnect_collect/src/config.cpp:138-157 | reads members up to the closing brace or marks the text bad; terminates on every text |
| ConfigJson.JsonParser.ParseAll | mtconnect_collect/src/config.cpp:159-165 | map and verdict for every terminated text, with the cursor at most at the terminator |
| JsonPrint.JsonEscape | mtconnect_collect/tools/mtc_stats.cpp:80-97 | the loop is escaping character by character |
| JsonPrint.WrittenAs | mtconnect_collect/tools/mtc_stats.cpp:80-97 | what is written for each character: five escapes, a space for other control characters, the character itself for the rest |
| JsonPrint.QuoteReadsBack | mtconnect_collect/src/config.cpp:81-105 | reading a quoted escaped text gives it back with other control characters as spaces, whatever follows |
| JsonPrint.EscapesRead | mtconnect_collect/src/config.cpp:87-97 | n, t and r behind a backslash stand for newline, tab and return, u and its four digits for nothing, any other character for itself |
| JsonPrint.RoundTripIff | mtconnect_collect/tools/mtc_stats.cpp:80-97 | nothing is lost if and only if no other control character occurs |
| JsonPrint.ControlCharacterLost | mtconnect_collect/tools/mtc_stats.cpp:80-97 | the character 1 comes back as a space |
| JsonPrint.WordReads | mtconnect_collect/src/config.cpp:124-135 | a bare text is stored without the blanks and tabs behind it, whichever of comma, brace and line break ends it |
| JsonPrint.ArraySkippedIff | mtconnect_collect/src/config.cpp:113-121 | an array is skipped up to its end, whatever follows, exactly when its brackets balance |
| JsonPrint.BracketInText | mtconnect_collect/src/config.cpp:113-121 | an array of the one text `]` is left behind that bracket |
| JsonPrint.DottedIsPath | mtconnect_collect/src/config.cpp:149 | the path of a leaf is its keys with dots between them; empty keys in front vanish with their dots |
| JsonPrint.TreeReadsBack | mtconnect_collect/src/config.cpp:107-157 | a printed tree of objects, quoted texts, bare words and arrays, with any blanks, is read as its leaves entered in order; the rest is untouched, but for blanks behind a word |
| JsonPrint.ConfigReadsBack | mtconnect_collect/src/config.cpp:68-166 | any printed object is accepted, its map has exactly the dotted paths of its quoted texts and bare words, arrays store nothing, the last text of a repeated path stays |
| JsonPrint.UniqueConfigReadsBack | mtconnect_collect/src/config.cpp:68-166 | with unique paths the map is the tree's dotted-path map |
| JsonPrint.ReadConfig | mtconnect_collect/src/config.cpp:68-166 | the parser object itself yields that map |

## Left out

- Sockets, HTTP, select and accept, SQLite and MySQL: a client write succeeds or fails, the alarms table is a map by key, statements succeed until the process dies; affected rows of an UPDATE that changes nothing are counted as matched.
- JSON and HTML output text, percentages, printing, logging, file writing, command line and INI parsing.
- Floating-point rounding: the simulator and the adapter use exact reals, and segment lengths in the simulator come from a distance function.
- Widths of counters: time stamps, totals and part counters are unbounded; the 64-bit saturation of number parsing and the 64-bit waiting time of the automatic cycle are modelled.
- Rows in another order: where order matters, rows are taken sorted by time with distinct (time, machine) keys and non-negative times, as the table's key (`mtconnect_collect/src/db/stats_db.cpp:13`) and the query's ORDER BY give them.
- The web server reads at most `g_max_rows` rows of a query (`mtconnect_collect/src/webserver/webserver.cpp:200`), the report all of them: comparisons between the two are about queries below that limit, where both see the same rows.
- Shifts.BuildShifts: days have 86400 seconds and local time is a fixed offset, so daylight saving and locale are not covered.
- Shifts.ShiftAggregate: the order in which machines are listed, and the per-product split inside a shift, are not modelled; the split groups the same rises by comment as `WebProducts.ApiProducts` does.
- Shifts.ApiShifts: dates, labels and the rendering of the utilisation are not modelled.
- WebStats.ApiSummary: a machine without a name makes its item's seconds those of all rows taken as one list, as `SecondsInRange` has it; no total is claimed for the two columns of seconds in that case.
- WebProducts.ApiProducts: the machine filter and the first and last values of an entry are not modelled; the filter acts as a selection of rows beforehand.
- Character encodings: texts are sequences of characters, one per byte.
- StreamParsing.StreamResponse: which sequence number the next request asks for is not modelled, and no claim is made that no agent event is skipped.
- AgentBlocks.BlockRead: the printed condition section opens with `<Condition>`; the other openings the source looks for when there is none (`mtconnect_collect/tools/mtc_stats.cpp:208-211`) are in `StreamParsing.ParseConditions` only. Attributes stand in any order; their values hold no quotes and no angle brackets, and texts no `<`.
- AgentDocument.ReadDocument: the document has one header tag, as an agent's response has.
- Alerts.RunAlerts: the texts of messages and the outcome of sending them are not modelled, a message counts as sent when it is handed over.
- StreamingFetch.EveryScheduleIsSafe: total and remaining are read together. The page reads them with two loads (`src/imgui_ui/view/HistoryView.cpp:25`) on the same thread that starts saves, so no start falls between them, and `StreamingFetch.ReadTwice` shows that nothing else matters; `finish` and `update` from other pages and `AsyncData::reset` are not modelled.
- Adapters.Serve: the server's endless loop is a run of any finite number of turns, taken one after the other by recursion. Availability never counts as having a value and is not an item here; time stamps, line lengths, cut-off at the text limit and the growth of the string buffer are not modelled; an item is sent as its rendered value. Events that carry text, enumerations and states share one kind each.
- Adapters.Adapter.Turn: which clients a read finds dead is given, by the turns in which they connected.
- ShdrServer.Server.AddClient: a connection arrives one per turn as in `connectToClients`; the walk over the pointer it returns is taken as "the new client, if it got a slot". Heartbeat answers are not part of what a client has received.
- FaultList.FanucConditions.GetCondition: the calls into the FOCAS library are given as what the control answers for each bit; conditions of other kinds of adapters are left out. Axis numbers of alarms are at most the number of axes the control has reported: behind it the source reads slots of its arrays that were never filled (`mtconnect_collect/src/fanuc/fanuc_adapter.cpp:666-682`).
- FaultList.FanucConditions.RaiseAlarm: the same bound on the axis number.
- FaultList.FanucConditions.TranslateAlarmNo: the same bound on the axis number.
- FaultList.Condition.SetValue: texts are not cut at the value length.
- CncSim.Simulator.SimStep: jog and MDI moves, `setpos` and the random loads are left out; they would break the segment a running program is on.
- CncSim.Simulator.Apply: texts of the answers, parsing of command values, and the commands program, jog, mdi, setpos and the counter settings of `set` are left out.
- ConfigJson.JsonParser.ParseAll: recursion depth is not bounded, so a stack overflow on very deep nesting is not modelled; the source text is not changed while it is read.
- ImGui views, React pages, the Windows service, FOCAS and Mazak wrappers, the sampler's back-off: user interface, plumbing and foreign libraries.
