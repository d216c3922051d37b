/**
 * The weighing report (Components/Models/WeighingRecord.cs): one master
 * record per batch session and one detail per ingredient weighed, with the
 * values the report pages derive from them.
 */
module Records {
  import opened Common

  const RecordStatusInProgress: string := "In Progress"
  const RecordStatusCompleted: string := "Completed"
  const RecordStatusAborted: string := "Aborted"

  /** Times are ticks; the nullable columns are Options. */
  datatype WeighingRecord = WeighingRecord(
    recordId: string,
    batchId: string,
    recipeId: string,
    recipeCode: string,
    recipeName: string,
    operatorName: string,
    sessionStartTime: int,
    sessionEndTime: Option<int>,
    totalRepetitions: int,
    completedRepetitions: int,
    status: string,
    abortReason: Option<string>,
    abortedBy: Option<string>,
    abortedDate: Option<int>,
    totalIngredientsWeighed: int,
    ingredientsWithinTolerance: int,
    ingredientsOutOfTolerance: int,
    averageDeviation: real,
    maxDeviation: real,
    createdDate: int,
    createdBy: string)

  /** The session's length in ticks; zero while it has no end time. */
  function Duration(r: WeighingRecord): int {
    if r.sessionEndTime.Some? then r.sessionEndTime.value - r.sessionStartTime else 0
  }

  /** Ending a session `d` ticks after its start gives it duration `d`; an open session has none. */
  lemma DurationSpec(r: WeighingRecord, d: int)
    ensures Duration(r.(sessionEndTime := Some(r.sessionStartTime + d))) == d
    ensures Duration(r.(sessionEndTime := None)) == 0
  {
  }

  function CompliancePercentage(r: WeighingRecord): real {
    if r.totalIngredientsWeighed > 0 then
      (r.ingredientsWithinTolerance as real) / (r.totalIngredientsWeighed as real) * 100.0
    else 0.0
  }

  /**
   * With no more ingredients in tolerance than weighed, compliance is a
   * percentage, and it is 100 exactly when every ingredient was in
   * tolerance and 0 exactly when none was.
   */
  lemma CompliancePercentageSpec(r: WeighingRecord)
    requires 0 <= r.ingredientsWithinTolerance <= r.totalIngredientsWeighed
    ensures 0.0 <= CompliancePercentage(r) <= 100.0
    ensures r.totalIngredientsWeighed > 0 ==>
      (CompliancePercentage(r) == 100.0 <==> r.ingredientsWithinTolerance == r.totalIngredientsWeighed)
    ensures CompliancePercentage(r) == 0.0 <==> r.ingredientsWithinTolerance == 0
  {
    if r.totalIngredientsWeighed > 0 {
      var w := r.ingredientsWithinTolerance as real;
      var t := r.totalIngredientsWeighed as real;
      var q := w / t;
      assert q * t == w;
      assert 1.0 * t == t && 0.0 * t == 0.0;
      MulStrict(q, 1.0, t);
      MulStrict(1.0, q, t);
      MulStrict(q, 0.0, t);
      MulStrict(0.0, q, t);
      assert 0.0 <= q <= 1.0;
      if w == t {
        assert q * t == 1.0 * t;
      }
      if q == 1.0 {
        assert w == 1.0 * t;
      }
      if w == 0.0 {
        assert q * t == 0.0 * t;
      }
      assert CompliancePercentage(r) == q * 100.0;
    }
  }

  /** One ingredient weighed. */
  datatype WeighingDetail = WeighingDetail(
    detailId: string,
    recordId: string,
    batchId: string,
    repetitionNumber: int,
    ingredientSequence: int,
    ingredientId: string,
    ingredientCode: string,
    ingredientName: string,
    targetWeight: real,
    actualWeight: real,
    minWeight: real,
    maxWeight: real,
    toleranceValue: real,
    bowlCode: string,
    bowlType: string,
    scaleNumber: int,
    unit: string,
    timestamp: int)

  function Deviation(d: WeighingDetail): real {
    d.actualWeight - d.targetWeight
  }

  function DeviationPercentage(d: WeighingDetail): real {
    if d.targetWeight > 0.0 then Deviation(d) / d.targetWeight * 100.0 else 0.0
  }

  /**
   * The deviation is what the actual weight adds to the target; its
   * percentage of a positive target reconstructs the actual weight and has
   * the deviation's sign. A target of zero or less reports 0 %.
   */
  lemma DeviationSpec(d: WeighingDetail)
    ensures d.actualWeight == d.targetWeight + Deviation(d)
    ensures d.targetWeight > 0.0 ==>
      d.actualWeight == d.targetWeight * (1.0 + DeviationPercentage(d) / 100.0)
    ensures d.targetWeight > 0.0 ==>
      ((DeviationPercentage(d) > 0.0 <==> d.actualWeight > d.targetWeight)
       && (DeviationPercentage(d) == 0.0 <==> d.actualWeight == d.targetWeight))
    ensures d.targetWeight <= 0.0 ==> DeviationPercentage(d) == 0.0
  {
    if d.targetWeight > 0.0 {
      var q := Deviation(d) / d.targetWeight;
      assert q * d.targetWeight == Deviation(d);
      MulStrict(q, 0.0, d.targetWeight);
    }
  }

  predicate IsWithinTolerance(d: WeighingDetail) {
    d.actualWeight >= d.minWeight && d.actualWeight <= d.maxWeight
  }

  /** With the band centred on the target, in tolerance means the deviation is at most the tolerance either way. */
  lemma WithinToleranceSpec(d: WeighingDetail)
    requires d.minWeight == d.targetWeight - d.toleranceValue && d.maxWeight == d.targetWeight + d.toleranceValue
    ensures IsWithinTolerance(d) <==> -d.toleranceValue <= Deviation(d) <= d.toleranceValue
  {
  }

  function StatusIcon(d: WeighingDetail): string {
    if IsWithinTolerance(d) then "✓" else "⚠"
  }

  function StatusColor(d: WeighingDetail): string {
    if IsWithinTolerance(d) then "green" else "orange"
  }

  function StatusText(d: WeighingDetail): string {
    if IsWithinTolerance(d) then "Within Tolerance" else "Out of Tolerance"
  }

  /** The three display values are one bit of information: each tells whether the detail is in tolerance. */
  lemma StatusDisplaySpec(d: WeighingDetail, e: WeighingDetail)
    ensures StatusIcon(d) == "✓" <==> IsWithinTolerance(d)
    ensures StatusColor(d) == "green" <==> IsWithinTolerance(d)
    ensures StatusText(d) == "Within Tolerance" <==> IsWithinTolerance(d)
    ensures IsWithinTolerance(d) == IsWithinTolerance(e) ==>
      StatusIcon(d) == StatusIcon(e) && StatusColor(d) == StatusColor(e) && StatusText(d) == StatusText(e)
  {
  }
}
