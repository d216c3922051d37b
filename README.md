# FirstWeigh weighing core in Dafny

This project models the bookkeeping core of FirstWeigh, a Blazor application for guided ingredient weighing. An operator starts a weighing session for a batch that is in progress. For each ingredient of the recipe they place and record an ingredient bowl and a mixing bowl, weigh the ingredient in on scale 1 against the line's tolerance band, and confirm the transfer to the mixing bowl on scale 2. This repeats for every ingredient and every repetition of the batch. Around that workflow the model covers:

- the batch lifecycle (Pending, InProgress, Completed, Aborted), with at most five batches in progress and `BATCHnnn` identifiers;
- the weighing report: one record per session and one detail per ingredient, with quality metrics and `RECORDnnn` / `DETAILnnnn` identifiers;
- the scale reader's window of the last five readings per scale, the stability test over it, and the byte layout of the two holding registers behind each reading;
- the user table (case-insensitive unique usernames, the last-Admin guard, `USERnnn` identifiers, the login match), the role-to-permission table, and the login lockout rule (five failures within thirty minutes);
- the recipe ingredient query and the per-row rules of the spreadsheet import;
- the display mappings of batches, bowls and report details.

Every spreadsheet is modelled as an in-memory sequence of rows, held in a field of the service class that owns it. Each command is first stated as a function from the old table to a success flag and the new table. The class method then follows the source's own steps and is proved equal to that function. The properties are lemmas about those functions.

Conventions:

- C# `decimal` is an exact `real`.
- `DateTime.Now` is an explicit tick count `now`.
- `StringComparison.OrdinalIgnoreCase` is ASCII upper-case folding.
- `int.TryParse` is modelled with its white space, sign and 32-bit range rules.
- `ToString("D3")` pads with zeros and keeps a leading minus sign.
- `maxId + 1` wraps at 2^31 - 1, as unchecked C# does.

Files, one module each:

| file | module | models |
|---|---|---|
| common.dfy | Common | integer parsing and `D`/`F` formatting, case-insensitive comparison, first match, maximum, prefixed identifiers |
| recipe.dfy | Recipes | Components/Models/Recipe.cs and LINQ's stable `OrderBy(Sequence)` |
| recipe_service.dfy | RecipeStore | Components/Services/RecipeService.cs |
| batch.dfy | Batches | Components/Models/Batch.cs |
| batch_service.dfy | BatchStore | Components/Services/BatchService.cs |
| session.dfy | Sessions | Components/Models/WeighingSession.cs |
| weighing.dfy | Weighing | Components/Services/WeighingService.cs |
| scale.dfy | Scales | Components/Services/ModbusScaleService.cs |
| record.dfy | Records | Components/Models/WeighingRecord.cs |
| report_service.dfy | Reports | Components/Services/ReportService.cs |
| user.dfy | Users | Components/Models/User.cs |
| user_service.dfy | UserStore | Components/Services/UserService.cs |
| login_attempts.dfy | LoginAttempts | Components/Services/LoginAttemptService.cs |
| bowl.dfy | Bowls | Components/Models/Bowl.cs |

## Model

| member | source | states |
|---|---|---|
| Common.Inc32 | Components/Services/UserService.cs:287 | `x + 1` on a 32-bit int: one more below the maximum, and the minimum after it |
| Common.FoldCase | Components/Services/UserService.cs:179 | the fold upper-cases the ASCII letters a-z, leaves every other character as it is, and keeps the length |
| Common.EqualsIgnoreCaseIsEquivalence | Components/Services/UserService.cs:199 | ignore-case equality is reflexive, symmetric and transitive |
| Common.EqualsIgnoreCaseExample | Components/Services/UserService.cs:179 | names differing only in letter case match; a trailing space does not |
| Common.NatDigitsValue | Components/Services/BatchService.cs:213 | the decimal digits of n read back as n |
| Common.PadZerosValue | Components/Services/BatchService.cs:213 | zero padding to a width does not change the value |
| Common.ParseInt32 | Components/Services/BatchService.cs:207 | `int.TryParse` succeeds only with a 32-bit value |
| Common.FormatDParses | Components/Services/BatchService.cs:207-213 | a 32-bit value formatted with `D<width>` parses back to itself |
| Common.PrefixedNumberParses | Components/Services/ReportService.cs:548-558 | prefix + `D` format starts with the prefix, and its suffix parses back to the number |
| Common.FindFirst | Components/Services/BatchService.cs:176 | `FirstOrDefault`: the first element satisfying the test, or none when none does |
| Common.FirstMatchAt | Components/Services/BatchService.cs:306-313 | a scan that stops at the first match has found what FirstOrDefault finds |
| Common.MaxOrDefault | Components/Services/ReportService.cs:555-556 | `DefaultIfEmpty(d).Max()`: d for no values, else an upper bound that is one of the values |
| Common.PrefixedNumber | Components/Services/ReportService.cs:548-554 | an identifier counts exactly when it has the prefix; an unparsable suffix counts as 0 |
| Common.PrefixedNumbers | Components/Services/ReportService.cs:546-554 | every prefixed identifier's number is among the collected numbers, each a 32-bit value |
| Common.PrefixedNumbersSound | Components/Services/ReportService.cs:546-554 | every collected number is the number of some prefixed identifier, and nothing is collected exactly when no identifier is prefixed; with `PrefixedNumbers`, the list is exactly the prefixed identifiers' numbers |
| Common.MaxPrefixedNumber | Components/Services/ReportService.cs:546-556 | the maximum is a 32-bit value at least as large as every prefixed number |
| Common.MaxPrefixedNumberSpec | Components/Services/ReportService.cs:546-556 | the maximum is 0 when no identifier is prefixed, and otherwise the number some prefixed identifier carries; with `MaxPrefixedNumber`, it is the largest prefixed number, so the next identifier is one past the largest |
| Common.FormatOne | Components/Services/ReportService.cs:544 | one in D3 format is "001" |
| Common.NextPrefixedIdFresh | Components/Services/ReportService.cs:541-559 | the next identifier carries a number above every prefixed number, so no identifier in the table equals it |
| Common.PrefixedNumbersForeign | Components/Services/ReportService.cs:548 | identifiers without the prefix contribute no numbers |
| Common.ForeignIdsStartAtOne | Components/Services/ReportService.cs:543-558 | a table with no prefixed identifier, empty or not, starts at prefix + "001" |
| Recipes.NewRecipe | Components/Models/Recipe.cs:9 | a new recipe is Active |
| Recipes.NewRecipeIngredient | Components/Models/Recipe.cs:29-33 | a new line uses scale 1, unit kg and a Medium bowl, with a zero band |
| Recipes.BandContainsTarget | Components/Models/Recipe.cs:42-43 | with a non-negative target and tolerance, MinWeight ≤ target ≤ MaxWeight |
| Recipes.BandIsSymmetric | Components/Models/Recipe.cs:42-43 | the band is 2·target·tol/100 wide and centred on the target |
| Recipes.InsertBySequence | Components/Services/RecipeService.cs:221 | inserting adds exactly that line to the multiset |
| Recipes.OrderBySequence | Components/Services/RecipeService.cs:221 | the sort is a permutation of its input |
| Recipes.InsertBySequenceSorted | Components/Services/RecipeService.cs:221 | inserting into a sorted list keeps it sorted by Sequence |
| Recipes.OrderBySequenceSorted | Components/Services/RecipeService.cs:221 | the result of `OrderBy(i => i.Sequence)` is sorted by Sequence |
| Recipes.WithSequenceAppend | Components/Services/RecipeService.cs:221 | selecting the lines of one key distributes over concatenation |
| Recipes.InsertBySequenceStable | Components/Services/RecipeService.cs:221 | an insertion places a line before the lines with an equal key, so among equal keys it keeps its place ahead of the lines that followed it |
| Recipes.OrderBySequenceStable | Components/Services/RecipeService.cs:221 | lines with equal Sequence keep their relative order (a stable sort) |
| Recipes.OrderBySequenceOfSorted | Components/Services/WeighingService.cs:38 | sorting a list already in Sequence order changes nothing, so the second sort when a session starts is harmless |
| RecipeStore.BowlSizeCell | Components/Services/RecipeService.cs:202 | an empty BowlSize cell reads as "Medium", any other as itself |
| RecipeStore.RowsOf | Components/Services/RecipeService.cs:258-290 | one stored row per line, in order |
| RecipeStore.SavedRowReadsBack | Components/Services/RecipeService.cs:188-203 | a saved line reads back as itself, except that an empty bowl size reads back as "Medium" |
| RecipeStore.MatchingIngredientsMembers | Components/Services/RecipeService.cs:184-212 | a line is collected exactly when a readable row of that recipe yields it |
| RecipeStore.IngredientsOfSorted | Components/Services/RecipeService.cs:221 | the query's result is sorted by Sequence and is a permutation of the matching lines |
| RecipeStore.IngredientsOfMembers | Components/Services/RecipeService.cs:172-221 | only rows with that RecipeId are returned, all of them readable, none with an empty bowl size |
| RecipeStore.HeadersSpec | Components/Services/RecipeService.cs:806-832 | headers are valid exactly when the first three cells are RecipeId, RecipeCode, RecipeName (recipes) or RecipeId, Sequence, IngredientId (ingredients) |
| RecipeStore.RecipeOutcomes | Components/Services/RecipeService.cs:714-747 | one outcome per recipe row, in order |
| RecipeStore.IngredientOutcomes | Components/Services/RecipeService.cs:752-790 | one outcome per ingredient row, in order |
| RecipeStore.EveryRowAccounted | Components/Services/RecipeService.cs:714-790 | every row is either imported or yields exactly one warning |
| RecipeStore.ImportedOfMembers | Components/Services/RecipeService.cs:740-741 | the imported list holds exactly the values of the Imported outcomes |
| RecipeStore.ImportOutcomeSpec | Components/Services/RecipeService.cs:679-804 | success iff a recipe was imported, and only then no error message; a missing sheet or bad header imports nothing and warns of nothing; otherwise the counts and warnings add up to the rows |
| RecipeStore.ImportedRecipesSpec | Components/Services/RecipeService.cs:711-747 | the imported recipes are exactly the readable rows whose code is not in the list read before the loop |
| RecipeStore.DuplicateCodesBothImported | Components/Services/RecipeService.cs:711-725 | that list is not refreshed, so two new rows with one code are both imported |
| RecipeStore.ImportedIngredientSpec | Components/Services/RecipeService.cs:756-781 | an imported line takes Id, Code, Name and Unit from the first catalogue entry whose code matches ignoring case |
| RecipeStore.UnknownIngredientSkipped | Components/Services/RecipeService.cs:763-767 | a row whose code matches no entry is skipped with a warning naming code and row |
| RecipeStore.OutcomeStep | Components/Services/RecipeService.cs:714-790 | one more row adds its outcome to the imports or to the warnings |
| RecipeStore.RecipeById | Components/Services/RecipeService.cs:159-170 | the first recipe with that Id, or none exactly when no recipe has it |
| RecipeStore.RecipeService.GetRecipeIngredients | Components/Services/RecipeService.cs:172-221 | the loop over the table followed by the sort returns exactly the ingredient query |
| RecipeStore.RecipeService.ImportRecipesFromExcel | Components/Services/RecipeService.cs:679-804 | returns the import's result and appends exactly the imported recipes and lines to the two tables |
| RecipeStore.RecipeService.ImportRecipeRows | Components/Services/RecipeService.cs:711-747 | the recipe loop appends the imported recipes and counts them, and collects the warnings in row order |
| RecipeStore.RecipeService.ImportIngredientRow | Components/Services/RecipeService.cs:754-789 | one pass of the ingredient loop yields that row's outcome and stores the line only when it is imported |
| RecipeStore.RecipeService.ImportIngredientRows | Components/Services/RecipeService.cs:750-790 | the ingredient loop appends the imported lines and counts them, and collects the warnings in row order |
| Batches.NewBatch | Components/Models/Batch.cs:9-10 | a new batch is Pending at repetition 0 with nothing stamped |
| Batches.NoRepetitionsNoApproval | Components/Models/Batch.cs:28-32 | with no repetitions planned, progress is 0 and no approval is needed |
| Batches.ApprovalThreshold | Components/Models/Batch.cs:28-32 | approval is needed exactly when more than 40 % of the repetitions are done |
| Batches.StatusBadgeClassSpec | Components/Models/Batch.cs:34-41 | the four lifecycle states get four distinct badges; any other string gets badge-secondary |
| BatchStore.BlankAsNone | Components/Services/BatchService.cs:242-248 | an empty text column reads back as null |
| BatchStore.AsStoredSpec | Components/Services/BatchService.cs:232-248 | storing keeps Id, status and counts, turns "" into null and is idempotent |
| BatchStore.BatchesWithStatus | Components/Services/BatchService.cs:179-183 | only batches with that status, all from the table |
| BatchStore.BatchesWithStatusComplete | Components/Services/BatchService.cs:179-183 | every batch in the table with that status is returned: a batch is in the result iff it is in the table with that status |
| BatchStore.CountAfterReplace | Components/Services/BatchService.cs:378-382 | rewriting one row changes a status count only by that row's old and new status |
| BatchStore.MaxBatchNumber | Components/Services/BatchService.cs:200-212 | `maxId` is between 0 and int.MaxValue and no parsable BATCH number exceeds it; it is 0 when no Id parses, and otherwise 0 or a number some batch carries, so it is the larger of 0 and the largest parsed number |
| BatchStore.MaxBatchExtend | Components/Services/BatchService.cs:204-210 | one `Math.Max` step over the next batch keeps `maxId` between 0 and int.MaxValue, above every parsed number, and 0 or attained |
| BatchStore.NextBatchIdFresh | Components/Services/BatchService.cs:213 | the new Id parses to maxId + 1, and no existing batch has it |
| BatchStore.FirstBatchId | Components/Services/BatchService.cs:200-213 | the first batch is BATCH001 |
| BatchStore.UpdatedDeletedSpec | Components/Services/BatchService.cs:256-318 | update and delete act on the first row with the Id only, and fail without change when there is none |
| BatchStore.UpdateFound | Components/Services/BatchService.cs:322-333 | a row found by Id and written back lands where it was found |
| BatchStore.StartSpec | Components/Services/BatchService.cs:320-334 | starting needs a Pending batch and fewer than five in progress; it sets InProgress, StartedBy, the start date and repetition 0; the count in progress never passes five |
| BatchStore.CompleteSpec | Components/Services/BatchService.cs:336-346 | completing needs InProgress; it sets Completed, the completion date, and CurrentRepetition = TotalRepetitions |
| BatchStore.AbortSpec | Components/Services/BatchService.cs:348-359 | aborting succeeds for any existing batch and stamps Aborted, AbortedBy, AbortReason and the date |
| BatchStore.ProgressSpec | Components/Services/BatchService.cs:361-376 | progress sets the repetition, and reaching the total also sets Completed |
| BatchStore.CompleteAfterFinalProgress | Components/Services/BatchService.cs:336-376 | after the final progress update has completed the batch, CompleteBatch fails its guard and changes nothing |
| BatchStore.CreatedBatchSpec | Components/Services/BatchService.cs:195-225 | a created batch is Pending at repetition 0, has the recipe's name when the recipe exists, and an Id no batch has |
| BatchStore.BatchService.CreateBatch | Components/Services/BatchService.cs:195-254 | the scan for maxId returns the next Id, and the new row is appended |
| BatchStore.BatchService.UpdateBatch | Components/Services/BatchService.cs:256-294 | the row loop is the update function |
| BatchStore.BatchService.DeleteBatch | Components/Services/BatchService.cs:296-318 | the row loop is the delete function |
| BatchStore.BatchService.StartBatch | Components/Services/BatchService.cs:320-334 | the command is the start function |
| BatchStore.BatchService.CompleteBatch | Components/Services/BatchService.cs:336-346 | the command is the complete function |
| BatchStore.BatchService.AbortBatch | Components/Services/BatchService.cs:348-359 | the command is the abort function |
| BatchStore.BatchService.UpdateRepetitionProgress | Components/Services/BatchService.cs:361-376 | the command is the progress function |
| Sessions.TransferToleranceSpec | Components/Models/WeighingSession.cs:76 | a transfer is out of tolerance exactly when it is light or heavy, never both |
| Sessions.NewSession | Components/Models/WeighingSession.cs:15-31 | a new session is at repetition 1, index 0, placing bowls, with zero weights and no bowls |
| Sessions.CurrentIngredient | Components/Models/WeighingSession.cs:34-37 | the ingredient at the index, present exactly when the index is below the count |
| Sessions.InvariantSessionIsLive | Components/Models/WeighingSession.cs:34-43 | a session within its bounds has a current ingredient and is not complete |
| Sessions.IsCompleteSpec | Components/Models/WeighingSession.cs:41-43 | complete past the last repetition, never before it, and on it exactly when no ingredient is left |
| Weighing.StartedSessionSpec | Components/Services/WeighingService.cs:17-44 | a session opens only for an InProgress batch whose recipe exists and has lines; it starts at batch repetition + 1, index 0, with the lines sorted and the operator defaulting to "Operator" |
| Weighing.BowlCommandsSpec | Components/Services/WeighingService.cs:46-125 | SelectBowls keeps the stage, ReadyToTransfer sets only the net weight, RecordBowlWeights moves to WeighIngredient; none changes ingredient or repetition |
| Weighing.ConfirmMidRepetition | Components/Services/WeighingService.cs:143-203 | mid-repetition the index moves up by one, the ingredient bowl and net weight reset, and the mixing bowl stays |
| Weighing.ConfirmEndOfRepetition | Components/Services/WeighingService.cs:146-190 | after the last ingredient the batch finishes exactly on the last repetition; otherwise the next repetition starts at index 0 with both bowls reset |
| Weighing.ConfirmPreservesInvariant | Components/Services/WeighingService.cs:143-203 | a session that stays active keeps index < count and repetition ≤ total |
| Weighing.ConfirmCountsDown | Components/Services/WeighingService.cs:143-203 | each transfer takes one step off the transfers left; the batch finishes at the last one |
| Weighing.AbsReal | Components/Services/WeighingService.cs:64 | `Math.Abs` is the non-negative one of x and -x |
| Weighing.VerifyBowlWeightSpec | Components/Services/WeighingService.cs:62-74 | valid iff the weights differ by at most the tolerance, symmetric in the two weights, and the message says which case holds |
| Weighing.NetWeightAfterSelection | Components/Services/WeighingService.cs:76-82 | net weight is the reading less the selected ingredient bowl, 0 with no session |
| Weighing.StatusByNetSpec | Components/Services/WeighingService.cs:97-112 | three disjoint cases, under, in or over the band; completion only within it |
| Weighing.LegacyIngredientStatusSpec | Components/Services/WeighingService.cs:241-280 | the legacy helper allows completion from target − tolerance/2 up to target + tolerance, divides by zero only for a zero target read below −tolerance, and reaches its closing "continue" message only at exactly target − tolerance |
| Weighing.WeighingService.StartWeighingSession | Components/Services/WeighingService.cs:17-44 | returns the opened session and makes it active; a refusal leaves the active session alone |
| Weighing.WeighingService.SelectBowls | Components/Services/WeighingService.cs:46-60 | refused, with nothing changed, unless the active session is for the batch |
| Weighing.WeighingService.RecordBowlWeights | Components/Services/WeighingService.cs:84-95 | refused, with nothing changed, unless the active session is for the batch |
| Weighing.WeighingService.ReadyToTransfer | Components/Services/WeighingService.cs:115-125 | refused, with nothing changed, unless the active session is for the batch |
| Weighing.WeighingService.ConfirmTransfer | Components/Services/WeighingService.cs:127-204 | never rejects a matching session; the session advances, and the batch table gets the progress update, or progress then completion |
| Weighing.WeighingService.PauseSession | Components/Services/WeighingService.cs:214-218 | drops the active session whatever batch it is for |
| Weighing.WeighingService.AbortSession | Components/Services/WeighingService.cs:220-229 | with a matching session it aborts the batch and clears the session; otherwise nothing changes |
| Weighing.FinishedBatchTable | Components/Services/WeighingService.cs:158-163 | after the last transfer the batch is Completed at the last repetition, and the completion call changes nothing |
| Scales.LastN | Components/Services/ModbusScaleService.cs:293-300 | the last n elements, in order |
| Scales.PushedLastN | Components/Services/ModbusScaleService.cs:293-300 | pushing onto the window of a stream gives the window of the longer stream |
| Scales.PushedSpec | Components/Services/ModbusScaleService.cs:293-300 | the new reading goes last, the window stays at most five, and on overflow only the oldest is dropped |
| Scales.FedIsLastN | Components/Services/ModbusScaleService.cs:140-167 | feeding a stream leaves the last five of window and stream |
| Scales.HistoryOfReadings | Components/Services/ModbusScaleService.cs:130-167 | from empty, the window holds the last min(n, 5) readings |
| Scales.SeqMax | Components/Services/ModbusScaleService.cs:261 | `Max()` is an upper bound and one of the values |
| Scales.SeqMin | Components/Services/ModbusScaleService.cs:262 | `Min()` is a lower bound and one of the values |
| Scales.IsStableSpec | Components/Services/ModbusScaleService.cs:257-278 | stable iff at least three samples and no two differ by more than the tolerance |
| Scales.SteadyIsStable | Components/Services/ModbusScaleService.cs:257-266 | three or more equal readings are stable at any non-negative tolerance |
| Scales.RegisterBytes | Components/Services/ModbusScaleService.cs:217-221 | the layout is four bytes |
| Scales.RegisterBytesRoundTrip | Components/Services/ModbusScaleService.cs:217-221 | the two registers and the four bytes determine each other |
| Scales.RegisterBytesWordOrder | Components/Services/ModbusScaleService.cs:217-222 | read little-endian, the bytes are register 0 in the high half and register 1 in the low half |
| Scales.Scale1Readings | Components/Services/ModbusScaleService.cs:144 | one decoded scale-1 reading per poll |
| Scales.Scale2Readings | Components/Services/ModbusScaleService.cs:159 | one decoded scale-2 reading per poll |
| Scales.WeightHistory.Add | Components/Services/ModbusScaleService.cs:295 | appends one reading |
| Scales.WeightHistory.RemoveAt0 | Components/Services/ModbusScaleService.cs:298 | drops the oldest reading |
| Scales.WeightHistory.Clear | Components/Services/ModbusScaleService.cs:130-131 | empties the list |
| Scales.WeightHistory.Copy | Components/Services/ModbusScaleService.cs:281-290 | a copy of the list, which stays as it is |
| Scales.ModbusScaleService.constructor | Components/Services/ModbusScaleService.cs:22-45 | two separate empty windows, nothing connected |
| Scales.ModbusScaleService.Connect | Components/Services/ModbusScaleService.cs:47-118 | both scales are marked connected exactly when the PLC is, and the result is their disjunction |
| Scales.ModbusScaleService.ReadScaleWeight | Components/Services/ModbusScaleService.cs:201-231 | 0 when disconnected or on a failed read, else the decoded register bytes |
| Scales.ModbusScaleService.UpdateWeightHistory | Components/Services/ModbusScaleService.cs:293-300 | the window after the push |
| Scales.ModbusScaleService.PollOnce | Components/Services/ModbusScaleService.cs:140-167 | one pass of the loop reads each connected scale and pushes its reading onto that scale's window; an unconnected scale keeps its window and its last weight |
| Scales.ModbusScaleService.PollAll | Components/Services/ModbusScaleService.cs:135-189 | from empty windows, the polling loop leaves each connected scale's window as its last five readings and its weight as the last reading; an unconnected scale, or no poll, keeps its weight |
| Scales.ModbusScaleService.StartReading | Components/Services/ModbusScaleService.cs:120-199 | refused unless the PLC is connected; the windows start empty and each connected scale's window ends as its last five readings and its weight is the last reading; an unconnected scale, or a run with no poll, keeps its weight |
| Scales.ModbusScaleService.GetScale1History | Components/Services/ModbusScaleService.cs:287-290 | returns the scale-1 window unchanged |
| Scales.ModbusScaleService.GetScale2History | Components/Services/ModbusScaleService.cs:281-284 | returns the scale-2 window unchanged |
| Scales.ModbusScaleService.Disconnect | Components/Services/ModbusScaleService.cs:302-321 | clears both flags and both windows |
| Scales.EmptyWindowUnstable | Components/Services/ModbusScaleService.cs:257-278 | an empty window, as after a disconnect or at the start of polling, is never stable |
| Records.DurationSpec | Components/Models/WeighingRecord.cs:18-20 | duration is end − start, zero with no end |
| Records.CompliancePercentageSpec | Components/Models/WeighingRecord.cs:38-40 | compliance lies in [0, 100]; once anything is weighed it is 100 iff all were within tolerance; it is 0 iff none was |
| Records.DeviationSpec | Components/Models/WeighingRecord.cs:69-72 | actual = target + deviation; the percentage reconstructs the actual weight and has the deviation's sign; 0 for a target ≤ 0 |
| Records.WithinToleranceSpec | Components/Models/WeighingRecord.cs:75-78 | with a band centred on the target, within tolerance iff the deviation is at most the tolerance |
| Records.StatusDisplaySpec | Components/Models/WeighingRecord.cs:90-92 | icon, colour and text each depend on the tolerance verdict alone |
| Reports.RecordIds | Components/Services/ReportService.cs:547 | the records' Ids in order |
| Reports.NextRecordIdFresh | Components/Services/ReportService.cs:541-559 | RECORD + a number above every RECORD number, so no record has it; RECORD001 when no Id has the prefix |
| Reports.DetailsOf | Components/Services/ReportService.cs:464-498 | exactly the details of that record |
| Reports.DetailsOfAppend | Components/Services/ReportService.cs:271-299 | saving a detail extends its own record's list only |
| Reports.SavePreservesNumbering | Components/Services/ReportService.cs:271-273 | saving keeps every detail numbered one past its record's earlier details |
| Reports.DetailsOfGrows | Components/Services/ReportService.cs:271-272 | a later detail of a record has seen more details of that record |
| Reports.NumberedDetailIdsDistinct | Components/Services/ReportService.cs:271-273 | two details of the same record never share a DetailId |
| Reports.DetailIdInjective | Components/Services/ReportService.cs:272 | different counts give different DetailIds |
| Reports.FirstDetailId | Components/Services/ReportService.cs:271-272 | the first detail of a record is DETAIL0001, whatever other records hold |
| Reports.DetailsOfNone | Components/Services/ReportService.cs:478 | a record with no rows has no details |
| Reports.AbsDeviation | Components/Services/ReportService.cs:340 | the absolute deviation is non-negative, ± the deviation |
| Reports.CountsPartition | Components/Services/ReportService.cs:336-338 | within + out of tolerance = total |
| Reports.MaxAbsDeviation | Components/Services/ReportService.cs:342-344 | the worst absolute deviation bounds them all and is one of them, or 0 for none |
| Reports.SumAbsDeviationBounded | Components/Services/ReportService.cs:339-341 | the sum of absolute deviations is between 0 and n times their bound |
| Reports.AverageWithinMax | Components/Services/ReportService.cs:339-344 | 0 ≤ average ≤ max |
| Reports.RepetitionsOf | Components/Services/ReportService.cs:326 | the distinct repetition numbers of the details |
| Reports.RepetitionsCount | Components/Services/ReportService.cs:326 | no more distinct repetitions than details, and at least one when there is any detail |
| Reports.StartedRecordSpec | Components/Services/ReportService.cs:171-188 | a new record is In Progress, open, with nothing weighed, under an unused Id, starting when the session did |
| Reports.RecordIndex | Components/Services/ReportService.cs:458-462 | the first record with that Id, none exactly when no record has it |
| Reports.FinalizeSpec | Components/Services/ReportService.cs:317-344 | fails without change exactly when the record is absent; Aborted iff asked, abort fields set only then; the metrics partition the details; 0 ≤ average ≤ max; no other row changes |
| Reports.ReportService.StartWeighingRecord | Components/Services/ReportService.cs:147-229 | appends the session's record under the next Id and returns it |
| Reports.ReportService.SaveIngredientDetail | Components/Services/ReportService.cs:265-308 | numbers the detail within its record, appends it, and keeps the table numbered per record |
| Reports.ReportService.FinalizedRecord | Components/Services/ReportService.cs:324-344 | the rewritten record is the finalized record: end time, status, abort fields and metrics from the record's details |
| Reports.ReportService.FinalizeReport | Components/Services/ReportService.cs:311-359 | the field-by-field rewrite is the finalize function |
| Reports.ReportService.GetRecordById | Components/Services/ReportService.cs:458-462 | a record with that Id from the table, none exactly when no record has it |
| Users.GetAllRoles | Components/Models/User.cs:24-27 | exactly the four role constants, each once |
| Users.PermissionsForRoleSpec | Components/Models/User.cs:42-96 | Admin and Developer get everything; a string that is not one of the four roles gets nothing; exactly the four roles may weigh, and each of them may manage bowls and view batch history |
| Users.RoleLimits | Components/Models/User.cs:70-93 | Operator may not approve aborts or create batches; Supervisor may approve aborts but not manage users or edit recipes; Operator ≤ Supervisor ≤ Admin |
| Users.RoleMatchIsExact | Components/Models/User.cs:44-94 | role matching is case-sensitive: "admin" gets nothing |
| UserStore.UserIds | Components/Services/UserService.cs:276 | the users' Ids in order |
| UserStore.UserNumberAsWritten | Components/Services/UserService.cs:277-283 | an Id contributes a number iff it starts with USER and has exactly seven characters; the number is a 32-bit value |
| UserStore.UserNumbersAsWritten | Components/Services/UserService.cs:275-283 | every Id passing the seven-character filter contributes its number, each a 32-bit value |
| UserStore.UserNumbersAsWrittenSound | Components/Services/UserService.cs:275-283 | every collected number comes from an Id passing the filter, and nothing is collected exactly when none passes; with `UserNumbersAsWritten`, the list is exactly those Ids' numbers |
| UserStore.MaxUserNumberAsWritten | Components/Services/UserService.cs:275-285 | `maxId` is a 32-bit value no seven-character USER number exceeds |
| UserStore.MaxUserNumberAsWrittenSpec | Components/Services/UserService.cs:275-285 | `maxId` is 0 when no Id passes the filter, and otherwise the number of one that does: the largest seven-character number |
| UserStore.NextUserIdAsWrittenSpec | Components/Services/UserService.cs:269-289 | for every table: USER001 when it is empty or no Id passes the filter; otherwise a USER Id whose suffix parses to one past `maxId` (32-bit wrap included) |
| UserStore.AsWrittenIgnoresUnfiltered | Components/Services/UserService.cs:277 | a user whose Id fails the seven-character filter (USER1000, say) never changes the next Id, for every table |
| UserStore.NextUserIdAsWrittenFresh | Components/Services/UserService.cs:269-289 | while `maxId` is between 0 and 998, the next Id has seven characters and no user has it |
| UserStore.AsWrittenRepeatsUserId | Components/Services/UserService.cs:277 | for every table whose `maxId` is 999, the generator gives USER1000, and once a user with that Id is added it gives USER1000 again |
| UserStore.SingleUser999 | Components/Services/UserService.cs:277-283 | a table holding just USER999 has `maxId` 999, so it meets the previous row's condition |
| UserStore.User999Number | Components/Services/UserService.cs:277-283 | USER999 counts as 999; USER1000 is ignored |
| UserStore.Format1000 | Components/Services/UserService.cs:287-288 | 1000 in D3 format is "1000", so 999 + 1 gives USER1000 |
| UserStore.NextUserIdFresh | Components/Services/UserService.cs:269-289 | the corrected generator gives an Id no user has, and USER001 for an empty table |
| UserStore.AdminCountConcat | Components/Services/UserService.cs:258 | the Admin count adds over concatenation |
| UserStore.UserIndex | Components/Services/UserService.cs:219 | the first user with that Id, none exactly when no user has it |
| UserStore.LoginSpec | Components/Services/UserService.cs:174-192 | a login succeeds iff some active user matches the name ignoring case and the password exactly; it returns the first such user with its last login stamped, and only that changes |
| UserStore.AddWithIdSpec | Components/Services/UserService.cs:194-214 | for any assigned Id: refused without change iff the name is taken in any case; otherwise exactly one user is appended, with that Id, both dates `now` and the caller as modifier; names stay unique, and Ids stay unique when the assigned Id is new |
| UserStore.AddSpec | Components/Services/UserService.cs:194-214 | `AddUserAsync` as written: refused without change iff the name is taken in any case; otherwise one user is appended under `GenerateNextUserId`'s Id with the caller as modifier; names stay unique; Ids stay unique only while `maxId` is between 0 and 998 |
| UserStore.AsWrittenAddRepeatsUserId | Components/Services/UserService.cs:194-214 | on any table holding USER1000 whose `maxId` is 999, adding a user under a new name succeeds and appends a second USER1000, so Ids are no longer unique |
| UserStore.CorrectedAddSpec | Components/Services/UserService.cs:194-214 | with the corrected generator, the add succeeds on the same inputs, appends under `NextUserId`, and keeps Ids unique for every table short of 32-bit wrap-around |
| UserStore.UpdateSpec | Components/Services/UserService.cs:216-244 | refused without change iff the Id is unknown or another user has the name; otherwise only that user changes, keeping Id, creation date and last login; uniqueness is kept |
| UserStore.DeleteSpec | Components/Services/UserService.cs:246-267 | refused without change iff the Id is unknown or the user is the only Admin; otherwise exactly that user goes, and a table with an Admin keeps one |
| UserStore.UserService.GetUserById | Components/Services/UserService.cs:168-172 | a user with that Id, none exactly when no user has it |
| UserStore.UserService.ValidateLogin | Components/Services/UserService.cs:174-192 | the login is the login function |
| UserStore.UserService.AddUser | Components/Services/UserService.cs:194-214 | the result and the new table are `AddOutcome`'s, with the Id from the generator as written |
| UserStore.UserService.UpdateUser | Components/Services/UserService.cs:216-244 | the field-by-field update is the update function |
| UserStore.UserService.DeleteUser | Components/Services/UserService.cs:246-267 | the removal is the delete function |
| LoginAttempts.Filter | Components/Services/LoginAttemptService.cs:127-129 | `Where` keeps exactly the matching elements |
| LoginAttempts.FilterConcat | Components/Services/LoginAttemptService.cs:113 | filtering preserves order: it distributes over concatenation |
| LoginAttempts.FilterAll | Components/Services/LoginAttemptService.cs:113 | a list whose every element passes is kept whole |
| LoginAttempts.RecentAttempts | Components/Services/LoginAttemptService.cs:122-130 | recent attempts are those of the user, ignoring case, later than now − 30 minutes |
| LoginAttempts.Timestamps | Components/Services/LoginAttemptService.cs:100 | the attempts' times in order |
| LoginAttempts.LockoutExpirySpec | Components/Services/LoginAttemptService.cs:94-105 | no expiry below five recent attempts; otherwise the latest recent time + 30 minutes, after now |
| LoginAttempts.ClearedSpec | Components/Services/LoginAttemptService.cs:107-120 | clearing removes exactly the user's attempts, in any case, keeping the others in order |
| LoginAttempts.LockedOneClock | Components/Services/LoginAttemptService.cs:70-92 | with one clock value, locked iff five recent attempts, and the "expired" branch never runs |
| LoginAttempts.LockedTwoClocks | Components/Services/LoginAttemptService.cs:70-92 | with two clock readings, locked iff the later one is before the expiry; the expired branch clears the user's attempts |
| LoginAttempts.Run | Components/Services/LoginAttemptService.cs:10 | a command with no wait on the static `SemaphoreSlim(1, 1)` never blocks, and leaves the lock free once it releases it |
| LoginAttempts.RunConcat | Components/Services/LoginAttemptService.cs:10 | running two phases in turn is running the second from where the first left the lock, unless the first blocks |
| LoginAttempts.AsWrittenLockedCommandBlocks | Components/Services/LoginAttemptService.cs:50-53 | as written, a command that waits on the lock and then calls `GetAllAttemptsAsync`, which waits again, blocks whatever the lock's state when it starts |
| LoginAttempts.CorrectedLockedCommandReturns | Components/Services/LoginAttemptService.cs:109-112 | with one wait per command, a command returns and frees the lock when the lock starts free, and waits only while another caller holds it |
| LoginAttempts.LoginAttemptService.RecordFailedAttempt | Components/Services/LoginAttemptService.cs:48-68 | appends exactly one attempt, stamped now |
| LoginAttempts.LoginAttemptService.IsAccountLocked | Components/Services/LoginAttemptService.cs:70-92 | the check is the lock function |
| LoginAttempts.LoginAttemptService.GetLockoutExpiry | Components/Services/LoginAttemptService.cs:94-105 | an expiry exists iff there are five recent attempts, and it lies after now |
| LoginAttempts.LoginAttemptService.ClearAttemptsForUser | Components/Services/LoginAttemptService.cs:107-120 | the table becomes the cleared one |
| Bowls.NewBowl | Components/Models/Bowl.cs:5-16 | a new bowl is a Regular Bowl, Available, weighing 0 |
| Bowls.DisplayTypeSpec | Components/Models/Bowl.cs:19-27 | a mixing bowl shows "Mixing Bowl"; any other shows its type |
| Bowls.GetAllCategories | Components/Models/Bowl.cs:51-54 | exactly the two categories |
| Bowls.GetAllStatuses | Components/Models/Bowl.cs:64-67 | exactly the four statuses, each once |
| Bowls.GetAllTypes | Components/Models/Bowl.cs:77-80 | exactly the four types, each once |
| Bowls.StatusColorSpec | Components/Models/Bowl.cs:30-43 | the listed statuses get four distinct colours, none of them "secondary"; any other status gets "secondary" |

## Left out

- Spreadsheet and file I/O: every ClosedXML read and write, template creation, and `Process.Start` openers. The tables are sequences of parsed rows. IngredientService.cs, BowlService.cs and AuditLogService.cs hold nothing but this I/O and are not part of this model.
- Console logging, including the scale-2 difference that `ConfirmTransferAsync` computes only to log it.
- `SemaphoreSlim` locking and every other form of concurrency. Only the file lock's wait and release order is modelled (`LoginAttempts.Run`), for the nested wait under "## Findings". The service class treats each command as atomic, that is, as the corrected command that returns.
- The JSON backups of users and reports, and their restore and cleanup. They are library serialisation plus the file system.
- The PLC network: the TCP client, `Task.Delay`, cancellation and the `WeightUpdated` event. `StartReadingAsync` is modelled as a finite sequence of polls with no `Disconnect` in between. Its "not connected" exception is a false result.
- `BitConverter.ToSingle` and the `(decimal)` cast are a parameter `toSingle`. Only the byte layout is modelled.
- `TareScaleAsync`, `CompleteIngredientAsync`, `GetActiveSession`, `ClearActiveSession`, `GetRecordsByDateRangeAsync` and `CompleteWeighingRecordAsync`. The first two are PLC writes or a no-op, the middle two trivial accessors, and the last two not on the weighing path.
- The importer's outer `catch`, which turns an unexpected exception into an error message. An unreadable typed cell is modelled for each row.
- Report rows that fail to parse when reading the record and detail worksheets. The record and detail tables are rows already parsed.
- The empty-text round trip of the record worksheet's abort columns. `FinalizeReportAsync` writes `AbortReason ?? ""` and `AbortedBy ?? ""` (ReportService.cs:408-409), and an empty cell reads back as null (ReportService.cs:576-577). `Reports.Finalized` keeps `Some("")` as given, so an empty abort reason is not mapped to none as the stored row would be.
- `RequiresSupervisorApproval` / `ProgressPercentage`: computed as an exact real, not the source's `double`.
- Decimal rounding in the tolerance band and the metrics: they are exact reals, not 28-digit decimals.
- 32-bit overflow of counters other than the identifier `+ 1`: repetitions, detail counts and the `CurrentIngredientIndex++` are unbounded integers. The index is a `nat`, since it only starts at 0 and is incremented.
- `Sessions.SessionInvariant`: kept for sessions opened with `CurrentRepetition < TotalRepetitions` at the batch. A batch opened at its last repetition or beyond starts a session outside the bound. `StartedSessionSpec` says exactly when the invariant is established.
- The default of 0.05 for `VerifyBowlWeight`'s tolerance in IWeighingService.cs:19. The model's `VerifyBowlWeight` defaults to the implementation's 0.01 (`DefaultBowlTolerance`).
- Dates in the batch and report worksheets are written as "yyyy-MM-dd HH:mm:ss" (BatchService.cs:238-247, ReportService.cs:375-381), so a stored date loses its sub-second ticks. The model stores exact ticks.
- Aliasing of the caller's objects. The services change and keep the objects they are given: the active session in WeighingService.cs, `batch` in `CreateBatchAsync`, `detail` in `SaveIngredientDetailAsync` and `newUser` in `AddUserAsync`. The model works on values and returns the stamped copy, so a caller holding the original does not see the change.
- Common.FoldCase: folds ASCII letters only. .NET's `OrdinalIgnoreCase` also folds non-ASCII letters, so "ÉLISE" and "élise" clash in `AddUserAsync` and match in `ValidateLoginAsync` and the lockout filter there, but not in the model.
- String lengths: C# `Length` counts UTF-16 code units, as in the seven-character test of `GenerateNextUserId` (UserService.cs:277). Dafny's `|id|` counts Unicode scalar values, so the two differ for an Id holding a character outside the Basic Multilingual Plane.
- `FormatFixed` implements `F3` for the bowl messages with rounding half away from zero. Culture-specific separators are not modelled.

## Findings

| source | as written | input that shows it | evidently intended | confidence | as-written member | corrected member |
|---|---|---|---|---|---|---|
| Components/Services/UserService.cs:277 | `GenerateNextUserId` considers only Ids of exactly seven characters (`id.Length == 7`) when taking the maximum | a table holding USER999: the next Id is USER1000; once that user is added, the next Id is USER1000 again, and `AddUserAsync` appends a second USER1000 (`AsWrittenAddRepeatsUserId`) | every USER-prefixed Id takes part, so the next Id is always fresh, as `GenerateNextRecordId` does | high; not executed | UserStore.AsWrittenRepeatsUserId | UserStore.NextUserIdFresh |
| Components/Services/LoginAttemptService.cs:134 | `GetAllAttemptsAsync` waits on `_fileLock`, a `SemaphoreSlim(1, 1)`, and `RecordFailedAttemptAsync` (line 53) and `ClearAttemptsForUserAsync` (line 112) call it while they already hold that lock (lines 50 and 109) | any failed login, or the clearing of an expired lockout: the second `WaitAsync` waits on the caller itself, so the command never returns | the commands read the worksheet inside their own lock without taking it again, so each returns and frees the lock | high; not executed | LoginAttempts.AsWrittenLockedCommandBlocks | LoginAttempts.CorrectedLockedCommandReturns |
