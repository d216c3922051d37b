/**
 * A weighing session (Components/Models/WeighingSession.cs): which batch is
 * being weighed, the repetition and ingredient the operator is on, the stage
 * of the current ingredient, and the bowl weights recorded along the way.
 */
module Sessions {
  import opened Common
  import opened Recipes

  /** Stage 1: place bowls and record weights; 2: add and weigh the ingredient; 3: transfer. */
  datatype WeighingStage = PlaceBowls | WeighIngredient | Transfer

  /** One completed transfer into the mixing bowl. */
  datatype TransferredIngredient = TransferredIngredient(
    repetitionNumber: int,
    ingredientSequence: int,
    ingredientId: string,
    ingredientCode: string,
    ingredientName: string,
    targetWeight: real,
    actualNetWeight: real,
    scale2WeightBefore: real,
    scale2WeightAfter: real,
    transferDeviation: real,
    transferredAt: int,
    bowlCode: string,
    bowlType: string,
    minWeight: real,
    maxWeight: real,
    toleranceValue: real)

  predicate TransferWithinTolerance(t: TransferredIngredient) {
    t.minWeight <= t.actualNetWeight <= t.maxWeight
  }

  /** A transfer is out of tolerance exactly when it is light or heavy, never both. */
  lemma TransferToleranceSpec(t: TransferredIngredient)
    requires t.minWeight <= t.maxWeight
    ensures !TransferWithinTolerance(t) <==> (t.actualNetWeight < t.minWeight || t.actualNetWeight > t.maxWeight)
    ensures !(t.actualNetWeight < t.minWeight && t.actualNetWeight > t.maxWeight)
  {
  }

  /**
   * The session. Times are ticks; the index only ever starts at 0 and is
   * incremented, so it is a nat.
   */
  datatype Session = Session(
    batchId: string,
    recipeId: string,
    recipeName: string,
    recipeCode: string,
    operatorName: string,
    startTime: int,
    sessionStarted: Option<int>,
    plannedStartTime: Option<int>,
    plannedEndTime: Option<int>,
    currentRepetition: int,
    totalRepetitions: int,
    currentIngredientIndex: nat,
    ingredients: seq<RecipeIngredient>,
    currentStage: WeighingStage,
    ingredientBowlWeight: real,
    mixingBowlWeightBefore: real,
    netIngredientWeight: real,
    transferredIngredients: seq<TransferredIngredient>,
    selectedIngredientBowlCode: Option<string>,
    selectedIngredientBowlWeight: real,
    selectedMixingBowlCode: Option<string>,
    selectedMixingBowlWeight: real,
    weighingRecordId: Option<string>)

  /** `new WeighingSession()`. */
  function NewSession(): (s: Session)
    ensures s.currentRepetition == 1 && s.currentIngredientIndex == 0 && s.currentStage == PlaceBowls
    ensures s.ingredientBowlWeight == 0.0 && s.mixingBowlWeightBefore == 0.0 && s.netIngredientWeight == 0.0
    ensures s.selectedIngredientBowlCode.None? && s.selectedMixingBowlCode.None?
    ensures s.transferredIngredients == [] && s.ingredients == []
  {
    Session("", "", "", "", "", 0, None, None, None, 1, 0, 0, [], PlaceBowls, 0.0, 0.0, 0.0, [],
      None, 0.0, None, 0.0, None)
  }

  /** The ingredient being weighed, or None once the index has run past the list. */
  function CurrentIngredient(s: Session): (r: Option<RecipeIngredient>)
    ensures r.Some? <==> s.currentIngredientIndex < |s.ingredients|
    ensures r.Some? ==> r.value == s.ingredients[s.currentIngredientIndex]
  {
    if s.currentIngredientIndex < |s.ingredients| then Some(s.ingredients[s.currentIngredientIndex]) else None
  }

  function TotalIngredients(s: Session): nat {
    |s.ingredients|
  }

  predicate IsComplete(s: Session) {
    s.currentRepetition > s.totalRepetitions
      || (s.currentRepetition == s.totalRepetitions && s.currentIngredientIndex >= TotalIngredients(s))
  }

  /** What the weighing service keeps true of the session it holds. */
  predicate SessionInvariant(s: Session) {
    s.currentIngredientIndex < |s.ingredients| && s.currentRepetition <= s.totalRepetitions
  }

  /** A session within its bounds is on some ingredient and is not complete. */
  lemma InvariantSessionIsLive(s: Session)
    requires SessionInvariant(s)
    ensures CurrentIngredient(s) == Some(s.ingredients[s.currentIngredientIndex])
    ensures !IsComplete(s)
  {
  }

  /** Completeness by cases: past the last repetition, or on it with every ingredient done. */
  lemma IsCompleteSpec(s: Session)
    ensures s.currentRepetition < s.totalRepetitions ==> !IsComplete(s)
    ensures s.currentRepetition == s.totalRepetitions ==>
      (IsComplete(s) <==> CurrentIngredient(s).None?)
    ensures s.currentRepetition > s.totalRepetitions ==> IsComplete(s)
  {
  }
}
