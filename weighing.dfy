/**
 * The weighing workflow (Components/Services/WeighingService.cs). The
 * service holds at most one active session. Every command names the batch
 * it is for and is refused when that is not the active session's batch.
 * For each ingredient the operator places and records the bowls
 * (PlaceBowls), weighs the ingredient in (WeighIngredient) and transfers it,
 * which advances to the next ingredient, the next repetition, or the end of
 * the batch. The status and verification helpers are pure.
 */
module Weighing {
  import opened Common
  import opened Recipes
  import opened RecipeStore
  import opened Batches
  import opened BatchStore
  import opened Sessions

  const DefaultBowlTolerance: real := 0.01
  const DefaultOperatorName: string := "Operator"

  // ---------------------------------------------------------------------
  // Session commands as functions of the session
  // ---------------------------------------------------------------------

  /** The guard every state-changing command starts with. */
  predicate IsActiveFor(active: Option<Session>, batchId: string) {
    active.Some? && active.value.batchId == batchId
  }

  /** The session `StartWeighingSessionAsync` opens, or None when it refuses. */
  function StartedSession(bs: seq<Batch>, recipes: seq<Recipe>, rows: seq<IngredientRow>, batchId: string, now: int)
    : Option<Session>
  {
    match BatchById(bs, batchId)
    case None => None
    case Some(b) =>
      if b.status != StatusInProgress then None
      else if RecipeById(recipes, b.recipeId).None? then None
      else
        var ingredients := IngredientsOf(rows, b.recipeId);
        if |ingredients| == 0 then None
        else Some(OpenedSession(b, batchId, ingredients, now))
  }

  /** The fresh session for batch `b` over the recipe lines `ingredients`. */
  function OpenedSession(b: Batch, batchId: string, ingredients: seq<RecipeIngredient>, now: int): Session {
    NewSession().(
      batchId := batchId,
      recipeId := b.recipeId,
      currentRepetition := b.currentRepetition + 1,
      totalRepetitions := b.totalRepetitions,
      currentIngredientIndex := 0,
      ingredients := OrderBySequence(ingredients),
      operatorName := b.startedBy.GetOr(DefaultOperatorName),
      sessionStarted := Some(now))
  }

  /**
   * A session opens only for a batch in progress whose recipe exists and has
   * ingredient lines. It starts on the repetition after the batch's count, at
   * the first ingredient, placing bowls, with the recipe's lines sorted by
   * Sequence and the batch's starter, or "Operator", as operator.
   */
  lemma StartedSessionSpec(bs: seq<Batch>, recipes: seq<Recipe>, rows: seq<IngredientRow>, batchId: string, now: int)
    ensures StartedSession(bs, recipes, rows, batchId, now).Some? <==>
      BatchById(bs, batchId).Some? && BatchById(bs, batchId).value.status == StatusInProgress
      && RecipeById(recipes, BatchById(bs, batchId).value.recipeId).Some?
      && |IngredientsOf(rows, BatchById(bs, batchId).value.recipeId)| > 0
    ensures StartedSession(bs, recipes, rows, batchId, now).Some? ==>
      var s := StartedSession(bs, recipes, rows, batchId, now).value;
      var b := BatchById(bs, batchId).value;
      s.batchId == batchId && s.recipeId == b.recipeId
      && s.currentRepetition == b.currentRepetition + 1 && s.totalRepetitions == b.totalRepetitions
      && s.currentIngredientIndex == 0 && s.currentStage == PlaceBowls
      && s.ingredients == IngredientsOf(rows, b.recipeId) && SortedBySequence(s.ingredients)
      && s.operatorName == (if b.startedBy.Some? then b.startedBy.value else DefaultOperatorName)
      && s.ingredientBowlWeight == 0.0 && s.mixingBowlWeightBefore == 0.0 && s.netIngredientWeight == 0.0
      && s.sessionStarted == Some(now)
      && (b.currentRepetition < b.totalRepetitions ==> SessionInvariant(s))
  {
    var b := BatchById(bs, batchId);
    if b.Some? {
      IngredientsOfSorted(rows, b.value.recipeId);
      OrderBySequenceOfSorted(IngredientsOf(rows, b.value.recipeId));
    }
  }

  function SelectBowlsOn(s: Session, ingredientBowlCode: string, ingredientBowlWeight: real,
    mixingBowlCode: string, mixingBowlWeight: real): Session
  {
    s.(selectedIngredientBowlCode := Some(ingredientBowlCode), selectedIngredientBowlWeight := ingredientBowlWeight,
       selectedMixingBowlCode := Some(mixingBowlCode), selectedMixingBowlWeight := mixingBowlWeight,
       mixingBowlWeightBefore := mixingBowlWeight)
  }

  function RecordBowlWeightsOn(s: Session, ingredientBowlWeight: real, mixingBowlWeight: real): Session {
    s.(ingredientBowlWeight := ingredientBowlWeight, mixingBowlWeightBefore := mixingBowlWeight,
       currentStage := WeighIngredient)
  }

  function ReadyToTransferOn(s: Session, netWeight: real): Session {
    s.(netIngredientWeight := netWeight)
  }

  /**
   * Selecting bowls, recording bowl weights and readying a transfer never
   * move the session to another ingredient or repetition; only recording
   * the bowl weights changes the stage, to WeighIngredient.
   */
  lemma BowlCommandsSpec(s: Session, ic: string, iw: real, mc: string, mw: real, net: real)
    ensures SelectBowlsOn(s, ic, iw, mc, mw).currentStage == s.currentStage
    ensures SelectBowlsOn(s, ic, iw, mc, mw).selectedIngredientBowlWeight == iw
    ensures SelectBowlsOn(s, ic, iw, mc, mw).mixingBowlWeightBefore == mw
    ensures RecordBowlWeightsOn(s, iw, mw).currentStage == WeighIngredient
    ensures ReadyToTransferOn(s, net) == s.(netIngredientWeight := net)
    ensures SelectBowlsOn(s, ic, iw, mc, mw).ingredients == s.ingredients
      && RecordBowlWeightsOn(s, iw, mw).ingredients == s.ingredients
    ensures SessionInvariant(s) ==>
      SessionInvariant(SelectBowlsOn(s, ic, iw, mc, mw)) && SessionInvariant(RecordBowlWeightsOn(s, iw, mw))
      && SessionInvariant(ReadyToTransferOn(s, net))
  {
  }

  /** Where a confirmed transfer leads. */
  datatype TransferStep =
    | NextIngredient(next: Session)
    | NextRepetition(next: Session, completedRepetition: int)
    | BatchFinished(lastRepetition: int)

  /**
   * `ConfirmTransferAsync` past its guard: the index moves on; past the last
   * ingredient either the batch is finished or the next repetition starts
   * with both bowls cleared; otherwise only the ingredient bowl is cleared.
   */
  function ConfirmTransferOn(s: Session): TransferStep {
    var index := s.currentIngredientIndex + 1;
    if index >= |s.ingredients| then
      if s.currentRepetition >= s.totalRepetitions then BatchFinished(s.currentRepetition)
      else
        NextRepetition(s.(currentRepetition := s.currentRepetition + 1, currentIngredientIndex := 0,
          currentStage := PlaceBowls,
          selectedIngredientBowlCode := None, selectedIngredientBowlWeight := 0.0,
          selectedMixingBowlCode := None, selectedMixingBowlWeight := 0.0,
          ingredientBowlWeight := 0.0, mixingBowlWeightBefore := 0.0, netIngredientWeight := 0.0),
          s.currentRepetition)
    else
      NextIngredient(s.(currentIngredientIndex := index, currentStage := PlaceBowls,
        selectedIngredientBowlCode := None, selectedIngredientBowlWeight := 0.0,
        ingredientBowlWeight := 0.0, netIngredientWeight := 0.0))
  }

  /**
   * Mid-repetition, a transfer moves to the next ingredient and the bowl
   * placement stage, clears the ingredient bowl and the net weight, and keeps
   * the mixing bowl and everything else.
   */
  lemma ConfirmMidRepetition(s: Session)
    requires s.currentIngredientIndex + 1 < |s.ingredients|
    ensures ConfirmTransferOn(s).NextIngredient?
    ensures
      var n := ConfirmTransferOn(s).next;
      n.currentIngredientIndex == s.currentIngredientIndex + 1 && n.currentStage == PlaceBowls
      && n.selectedIngredientBowlCode.None? && n.selectedIngredientBowlWeight == 0.0
      && n.ingredientBowlWeight == 0.0 && n.netIngredientWeight == 0.0
      && n.selectedMixingBowlCode == s.selectedMixingBowlCode
      && n.selectedMixingBowlWeight == s.selectedMixingBowlWeight
      && n.mixingBowlWeightBefore == s.mixingBowlWeightBefore
      && n.currentRepetition == s.currentRepetition && n.ingredients == s.ingredients
      && n.batchId == s.batchId
  {
  }

  /**
   * After the last ingredient of a repetition, the batch is finished when
   * this was the last repetition; otherwise the next repetition starts at
   * the first ingredient with both bowls and the net weight cleared.
   */
  lemma ConfirmEndOfRepetition(s: Session)
    requires s.currentIngredientIndex + 1 >= |s.ingredients|
    ensures ConfirmTransferOn(s).BatchFinished? <==> s.currentRepetition >= s.totalRepetitions
    ensures ConfirmTransferOn(s).BatchFinished? ==> ConfirmTransferOn(s).lastRepetition == s.currentRepetition
    ensures ConfirmTransferOn(s).NextRepetition? ==>
      var n := ConfirmTransferOn(s).next;
      ConfirmTransferOn(s).completedRepetition == s.currentRepetition
      && n.currentRepetition == s.currentRepetition + 1 && n.currentIngredientIndex == 0
      && n.currentStage == PlaceBowls
      && n.selectedIngredientBowlCode.None? && n.selectedMixingBowlCode.None?
      && n.selectedIngredientBowlWeight == 0.0 && n.selectedMixingBowlWeight == 0.0
      && n.ingredientBowlWeight == 0.0 && n.mixingBowlWeightBefore == 0.0 && n.netIngredientWeight == 0.0
      && n.ingredients == s.ingredients && n.batchId == s.batchId
  {
  }

  /** A session that stays active after a transfer stays within its bounds. */
  lemma ConfirmPreservesInvariant(s: Session)
    requires SessionInvariant(s)
    ensures !ConfirmTransferOn(s).BatchFinished? ==> SessionInvariant(ConfirmTransferOn(s).next)
  {
  }

  /**
   * Run to the end, a session within its bounds passes through every
   * ingredient of every remaining repetition: it takes exactly this many
   * transfers to finish the batch.
   */
  function TransfersLeft(s: Session): int {
    (s.totalRepetitions - s.currentRepetition) * |s.ingredients| + (|s.ingredients| - s.currentIngredientIndex)
  }

  lemma ConfirmCountsDown(s: Session)
    requires SessionInvariant(s)
    ensures TransfersLeft(s) >= 1
    ensures ConfirmTransferOn(s).BatchFinished? <==> TransfersLeft(s) == 1
    ensures !ConfirmTransferOn(s).BatchFinished? ==> TransfersLeft(ConfirmTransferOn(s).next) == TransfersLeft(s) - 1
  {
    var r := s.totalRepetitions - s.currentRepetition;
    var n := |s.ingredients|;
    NonNegProduct(r, n);
    if s.currentIngredientIndex + 1 < n {
      assert TransfersLeft(s) >= 2;
    } else if r == 0 {
      assert TransfersLeft(s) == 1;
    } else {
      NonNegProduct(r - 1, n);
      assert (r - 1) * n + n == r * n;
      assert TransfersLeft(s) >= 2;
    }
  }

  lemma NonNegProduct(a: int, b: int)
    requires a >= 0 && b >= 0
    ensures a * b >= 0
  {
  }

  // ---------------------------------------------------------------------
  // Pure helpers
  // ---------------------------------------------------------------------

  function AbsReal(x: real): (r: real)
    ensures r >= 0.0 && (r == x || r == -x)
  {
    if x < 0.0 then -x else x
  }

  datatype BowlCheck = BowlCheck(isValid: bool, message: string)

  /** `VerifyBowlWeight`: the bowl on the scale is the recorded one when it is within `tolerance` of it. */
  function VerifyBowlWeight(actualWeight: real, recordedWeight: real, bowlCode: string, tolerance: real := DefaultBowlTolerance): BowlCheck {
    var difference := AbsReal(actualWeight - recordedWeight);
    if difference <= tolerance then
      BowlCheck(true, "✓ Bowl " + bowlCode + " verified: " + FormatFixed(actualWeight, 3) + " kg")
    else
      BowlCheck(false, "⚠ Bowl " + bowlCode + " weight mismatch!\nExpected: " + FormatFixed(recordedWeight, 3)
        + " kg\nActual: " + FormatFixed(actualWeight, 3) + " kg\nDifference: " + FormatFixed(difference, 3) + " kg")
  }

  /** Valid exactly when the two weights differ by at most the tolerance, either way round; the message says which. */
  lemma VerifyBowlWeightSpec(actual: real, recorded: real, code: string, tolerance: real)
    ensures VerifyBowlWeight(actual, recorded, code, tolerance).isValid <==>
      recorded - tolerance <= actual <= recorded + tolerance
    ensures VerifyBowlWeight(actual, recorded, code, tolerance).isValid <==>
      VerifyBowlWeight(recorded, actual, code, tolerance).isValid
    ensures StartsWith(VerifyBowlWeight(actual, recorded, code, tolerance).message,
      if VerifyBowlWeight(actual, recorded, code, tolerance).isValid then "✓ Bowl " + code else "⚠ Bowl " + code)
  {
    var m := VerifyBowlWeight(actual, recorded, code, tolerance).message;
    var p := if VerifyBowlWeight(actual, recorded, code, tolerance).isValid then "✓ Bowl " + code else "⚠ Bowl " + code;
    assert m[..|p|] == p;
  }

  /** Net weight on scale 1: the reading less the selected ingredient bowl, or 0 with no session. */
  function NetIngredientWeight(active: Option<Session>, currentScale1Weight: real): real {
    if active.None? then 0.0 else currentScale1Weight - active.value.selectedIngredientBowlWeight
  }

  /** Once bowls are selected, the net weight is the reading less that bowl's weight, and the bare bowl reads 0. */
  lemma NetWeightAfterSelection(s: Session, ic: string, iw: real, mc: string, mw: real, reading: real)
    ensures NetIngredientWeight(Some(SelectBowlsOn(s, ic, iw, mc, mw)), reading) == reading - iw
    ensures NetIngredientWeight(Some(SelectBowlsOn(s, ic, iw, mc, mw)), iw) == 0.0
    ensures NetIngredientWeight(None, reading) == 0.0
  {
  }

  datatype IngredientStatus = IngredientStatus(statusColor: string, statusIcon: string, statusMessage: string,
    canComplete: bool)

  /** `GetIngredientStatusByNet`, on the recipe line's tolerance band. */
  function StatusByNet(netWeight: real, ingredient: RecipeIngredient): IngredientStatus {
    if netWeight < MinWeight(ingredient) then
      IngredientStatus("red", "⬇", "Keep adding material - Under target", false)
    else if MinWeight(ingredient) <= netWeight <= MaxWeight(ingredient) then
      IngredientStatus("green", "✓", "GOOD - Target reached!", true)
    else
      IngredientStatus("red", "⚠", "OVER TARGET - Stop adding!", false)
  }

  /**
   * Three exhaustive and disjoint cases: under the band, in it, over it.
   * Only a weight in the band may complete the ingredient, and that case
   * alone shows green.
   */
  lemma StatusByNetSpec(net: real, i: RecipeIngredient)
    ensures StatusByNet(net, i).canComplete <==> MinWeight(i) <= net <= MaxWeight(i)
    ensures StatusByNet(net, i).statusColor == "green" <==> StatusByNet(net, i).canComplete
    ensures StatusByNet(net, i).statusMessage == "Keep adding material - Under target" <==> net < MinWeight(i)
    ensures StatusByNet(net, i).statusMessage == "OVER TARGET - Stop adding!" <==>
      net >= MinWeight(i) && net > MaxWeight(i)
  {
  }

  /** The legacy helper's outcome: decimal division by a zero target throws. */
  datatype LegacyStatus = Status(status: IngredientStatus) | DivideByZero

  const ApproachMessage: string := "Slow down - approaching target"
  const CautionMessage: string := "Caution - near maximum limit"
  const ContinueMessage: string := "Continue adding"

  /**
   * `GetIngredientStatus`: takes TolerancePercentage as an absolute weight
   * and nests a yellow band of half the tolerance inside the red limits.
   */
  function LegacyIngredientStatus(currentWeight: real, ingredient: RecipeIngredient): LegacyStatus {
    var target := ingredient.targetWeight;
    var tolerance := ingredient.tolerancePercentage;
    var minWeight := target - tolerance;
    var maxWeight := target + tolerance;
    var yellowMin := target - tolerance * 0.5;
    var yellowMax := target + tolerance * 0.5;
    if currentWeight > maxWeight then
      Status(IngredientStatus("red", "❌", "OVER TARGET - Stop adding immediately!", false))
    else if yellowMin <= currentWeight <= yellowMax then
      Status(IngredientStatus("green", "✓", "GOOD - Target reached!", true))
    else if minWeight < currentWeight < yellowMin then
      Status(IngredientStatus("yellow", "⚠️", ApproachMessage, false))
    else if currentWeight < minWeight then
      if target == 0.0 then DivideByZero
      else
        var percentage := currentWeight / target * 100.0;
        Status(IngredientStatus("red", "⬆️", "Keep adding material (" + FormatFixed(percentage, 0) + "%)", false))
    else if yellowMax < currentWeight <= maxWeight then
      Status(IngredientStatus("yellow", "⚠️", CautionMessage, true))
    else
      Status(IngredientStatus("yellow", "⚠️", ContinueMessage, false))
  }

  /**
   * With a non-negative tolerance the legacy helper allows completion
   * exactly from the lower yellow limit up to the upper red limit; it throws
   * only below the band of a zero target; and its fall-through case is
   * reached only at exactly the lower red limit.
   */
  lemma LegacyIngredientStatusSpec(c: real, i: RecipeIngredient)
    requires i.tolerancePercentage >= 0.0
    ensures LegacyIngredientStatus(c, i).DivideByZero? <==>
      i.targetWeight == 0.0 && c < -i.tolerancePercentage
    ensures LegacyIngredientStatus(c, i).Status? ==>
      (LegacyIngredientStatus(c, i).status.canComplete <==>
        i.targetWeight - i.tolerancePercentage * 0.5 <= c <= i.targetWeight + i.tolerancePercentage)
    ensures LegacyIngredientStatus(c, i).Status? && LegacyIngredientStatus(c, i).status.statusMessage == ContinueMessage
      <==> c == i.targetWeight - i.tolerancePercentage && i.tolerancePercentage > 0.0
  {
  }

  // ---------------------------------------------------------------------
  // The service
  // ---------------------------------------------------------------------

  class WeighingService {
    const batchService: BatchService
    const recipeService: RecipeService
    var active: Option<Session>

    constructor (batchService: BatchService, recipeService: RecipeService)
      ensures this.batchService == batchService && this.recipeService == recipeService && active.None?
    {
      this.batchService := batchService;
      this.recipeService := recipeService;
      active := None;
    }

    /** `StartWeighingSessionAsync`: a session replaces the active one only when it opens. */
    method StartWeighingSession(batchId: string, now: int) returns (r: Option<Session>)
      modifies this
      ensures r == StartedSession(batchService.batches, recipeService.recipes, recipeService.ingredientRows, batchId, now)
      ensures active == if r.Some? then r else old(active)
    {
      var batch := batchService.GetBatchById(batchId);
      if batch.None? || batch.value.status != StatusInProgress {
        return None;
      }
      var b := batch.value;
      var recipe := recipeService.GetRecipeById(b.recipeId);
      if recipe.None? {
        return None;
      }
      var ingredients := recipeService.GetRecipeIngredients(b.recipeId);
      if |ingredients| == 0 {
        return None;
      }
      var s := OpenedSession(b, batchId, ingredients, now);
      active := Some(s);
      r := active;
    }

    method SelectBowls(batchId: string, ingredientBowlCode: string, ingredientBowlWeight: real,
      mixingBowlCode: string, mixingBowlWeight: real) returns (ok: bool)
      modifies this
      ensures ok == IsActiveFor(old(active), batchId)
      ensures active == if ok then
        Some(SelectBowlsOn(old(active).value, ingredientBowlCode, ingredientBowlWeight, mixingBowlCode, mixingBowlWeight))
        else old(active)
    {
      if active.None? || active.value.batchId != batchId {
        return false;
      }
      active := Some(active.value.(
        selectedIngredientBowlCode := Some(ingredientBowlCode),
        selectedIngredientBowlWeight := ingredientBowlWeight,
        selectedMixingBowlCode := Some(mixingBowlCode),
        selectedMixingBowlWeight := mixingBowlWeight,
        mixingBowlWeightBefore := mixingBowlWeight));
      return true;
    }

    function GetNetIngredientWeight(currentScale1Weight: real): real
      reads this
    {
      NetIngredientWeight(active, currentScale1Weight)
    }

    method RecordBowlWeights(batchId: string, ingredientBowlWeight: real, mixingBowlWeight: real) returns (ok: bool)
      modifies this
      ensures ok == IsActiveFor(old(active), batchId)
      ensures active == if ok then Some(RecordBowlWeightsOn(old(active).value, ingredientBowlWeight, mixingBowlWeight))
        else old(active)
    {
      if active.None? || active.value.batchId != batchId {
        return false;
      }
      active := Some(active.value.(ingredientBowlWeight := ingredientBowlWeight,
        mixingBowlWeightBefore := mixingBowlWeight, currentStage := WeighIngredient));
      return true;
    }

    method ReadyToTransfer(batchId: string, netWeight: real) returns (ok: bool)
      modifies this
      ensures ok == IsActiveFor(old(active), batchId)
      ensures active == if ok then Some(ReadyToTransferOn(old(active).value, netWeight)) else old(active)
    {
      if active.None? || active.value.batchId != batchId {
        return false;
      }
      active := Some(active.value.(netIngredientWeight := netWeight));
      return true;
    }

    /**
     * `ConfirmTransferAsync`. The scale-2 reading only feeds a logged
     * difference: the transfer is never rejected. Finishing the batch records
     * the last repetition's progress and then asks for completion; starting
     * the next repetition records the one just done.
     */
    method ConfirmTransfer(batchId: string, currentScale2Weight: real, now: int) returns (ok: bool)
      modifies this, batchService
      ensures ok == IsActiveFor(old(active), batchId)
      ensures !ok ==> active == old(active) && batchService.batches == old(batchService.batches)
      ensures ok ==> match ConfirmTransferOn(old(active).value)
        case NextIngredient(n) =>
          active == Some(n) && batchService.batches == old(batchService.batches)
        case NextRepetition(n, done) =>
          active == Some(n) && batchService.batches == ProgressOutcome(old(batchService.batches), batchId, done, now).batches
        case BatchFinished(last) =>
          active.None? && batchService.batches ==
            CompleteOutcome(ProgressOutcome(old(batchService.batches), batchId, last, now).batches, batchId, now).batches
    {
      if active.None? || active.value.batchId != batchId {
        return false;
      }
      var s := active.value;
      var expectedScale2 := s.mixingBowlWeightBefore + s.netIngredientWeight;
      var difference := AbsReal(expectedScale2 - currentScale2Weight);
      s := s.(currentIngredientIndex := s.currentIngredientIndex + 1);
      if s.currentIngredientIndex >= |s.ingredients| {
        if s.currentRepetition >= s.totalRepetitions {
          var _ := batchService.UpdateRepetitionProgress(batchId, s.currentRepetition, now);
          var _ := batchService.CompleteBatch(batchId, now);
          active := None;
          return true;
        }
        s := s.(currentRepetition := s.currentRepetition + 1);
        var _ := batchService.UpdateRepetitionProgress(batchId, s.currentRepetition - 1, now);
        s := s.(currentIngredientIndex := 0, currentStage := PlaceBowls,
          selectedIngredientBowlCode := None, selectedIngredientBowlWeight := 0.0,
          selectedMixingBowlCode := None, selectedMixingBowlWeight := 0.0,
          ingredientBowlWeight := 0.0, mixingBowlWeightBefore := 0.0, netIngredientWeight := 0.0);
        active := Some(s);
        return true;
      }
      s := s.(currentStage := PlaceBowls, selectedIngredientBowlCode := None, selectedIngredientBowlWeight := 0.0,
        ingredientBowlWeight := 0.0, netIngredientWeight := 0.0);
      active := Some(s);
      return true;
    }

    /** `PauseSessionAsync`: drops the active session whatever batch it is for. */
    method PauseSession(batchId: string) returns (ok: bool)
      modifies this
      ensures ok && active.None?
    {
      active := None;
      return true;
    }

    /** `AbortSessionAsync`: aborts the batch in the table and drops the session. */
    method AbortSession(batchId: string, reason: string, abortedBy: string, now: int) returns (ok: bool)
      modifies this, batchService
      ensures ok == IsActiveFor(old(active), batchId)
      ensures !ok ==> active == old(active) && batchService.batches == old(batchService.batches)
      ensures ok ==> (active.None?
        && batchService.batches == AbortOutcome(old(batchService.batches), batchId, abortedBy, reason, now).batches)
    {
      if active.None? || active.value.batchId != batchId {
        return false;
      }
      var _ := batchService.AbortBatch(batchId, abortedBy, reason, now);
      active := None;
      return true;
    }
  }

  /**
   * The table after a session finishes its batch: the final progress update
   * has already completed the batch, so the completion request that follows
   * changes nothing; the batch ends Completed at the last repetition.
   */
  lemma FinishedBatchTable(bs: seq<Batch>, batchId: string, last: int, now: int)
    requires BatchById(bs, batchId).Some? && last >= BatchById(bs, batchId).value.totalRepetitions
    ensures
      var after := CompleteOutcome(ProgressOutcome(bs, batchId, last, now).batches, batchId, now).batches;
      after == ProgressOutcome(bs, batchId, last, now).batches
      && BatchById(after, batchId).Some? && BatchById(after, batchId).value.status == StatusCompleted
      && BatchById(after, batchId).value.currentRepetition == last
  {
    CompleteAfterFinalProgress(bs, batchId, last, now, now);
    ProgressSpec(bs, batchId, last, now);
  }
}
