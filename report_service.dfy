/**
 * The report store (Components/Services/ReportService.cs): opening a
 * weighing record for a session, numbering the ingredient details saved
 * under it, and finalising it with quality metrics computed from those
 * details. The two worksheets are sequences of parsed rows.
 */
module Reports {
  import opened Common
  import opened Sessions
  import opened Records

  const RecordPrefix: string := "RECORD"
  const DetailPrefix: string := "DETAIL"

  // ---------------------------------------------------------------------
  // Record identifiers
  // ---------------------------------------------------------------------

  function RecordIds(rs: seq<WeighingRecord>): (r: seq<string>)
    ensures |r| == |rs| && forall k :: 0 <= k < |rs| ==> r[k] == rs[k].recordId
  {
    seq(|rs|, k requires 0 <= k < |rs| => rs[k].recordId)
  }

  /** `GenerateNextRecordId`: RECORD001 for an empty table, else one past the largest RECORD number. */
  function NextRecordId(rs: seq<WeighingRecord>): string {
    NextPrefixedId(RecordIds(rs), RecordPrefix)
  }

  function MaxRecordNumber(rs: seq<WeighingRecord>): int {
    MaxPrefixedNumber(RecordIds(rs), RecordPrefix)
  }

  /**
   * The next identifier is RECORD followed by a number above every record
   * number in the table, so no record has it (short of 32-bit wrap-around);
   * a table with no RECORD identifiers, empty or not, starts at RECORD001.
   */
  lemma NextRecordIdFresh(rs: seq<WeighingRecord>)
    requires MaxRecordNumber(rs) < Int32Max
    ensures StartsWith(NextRecordId(rs), RecordPrefix)
    ensures PrefixedNumber(NextRecordId(rs), RecordPrefix) == Some(MaxRecordNumber(rs) + 1)
    ensures forall k :: 0 <= k < |rs| && PrefixedNumber(rs[k].recordId, RecordPrefix).Some? ==>
      PrefixedNumber(rs[k].recordId, RecordPrefix).value <= MaxRecordNumber(rs)
    ensures forall k :: 0 <= k < |rs| ==> rs[k].recordId != NextRecordId(rs)
    ensures (forall k :: 0 <= k < |rs| ==> !StartsWith(rs[k].recordId, RecordPrefix)) ==>
      NextRecordId(rs) == "RECORD001"
  {
    var ids := RecordIds(rs);
    NextPrefixedIdFresh(ids, RecordPrefix);
    if forall k :: 0 <= k < |rs| ==> !StartsWith(rs[k].recordId, RecordPrefix) {
      ForeignIdsStartAtOne(ids, RecordPrefix);
    }
  }

  // ---------------------------------------------------------------------
  // Details
  // ---------------------------------------------------------------------

  /** `GetDetailsByRecordIdAsync`: the detail rows of one record, in table order. */
  function DetailsOf(ds: seq<WeighingDetail>, recordId: string): (r: seq<WeighingDetail>)
    ensures |r| <= |ds|
    ensures forall d :: d in r <==> d in ds && d.recordId == recordId
  {
    if ds == [] then []
    else
      var init := DetailsOf(ds[..|ds| - 1], recordId);
      assert ds == ds[..|ds| - 1] + [ds[|ds| - 1]];
      if ds[|ds| - 1].recordId == recordId then init + [ds[|ds| - 1]] else init
  }

  /** Appending a detail adds it to its own record's list and leaves every other record's list alone. */
  lemma DetailsOfAppend(ds: seq<WeighingDetail>, d: WeighingDetail, recordId: string)
    ensures DetailsOf(ds + [d], recordId) ==
      if d.recordId == recordId then DetailsOf(ds, recordId) + [d] else DetailsOf(ds, recordId)
  {
    assert (ds + [d])[..|ds + [d]| - 1] == ds;
  }

  /** The DetailId `SaveIngredientDetailAsync` gives the next detail of a record. */
  function NextDetailId(ds: seq<WeighingDetail>, recordId: string): string {
    DetailPrefix + FormatD(|DetailsOf(ds, recordId)| + 1, 4)
  }

  /** The detail as saved: it takes the next DetailId and the record's Id. */
  function SavedDetail(ds: seq<WeighingDetail>, recordId: string, detail: WeighingDetail): WeighingDetail {
    detail.(detailId := NextDetailId(ds, recordId), recordId := recordId)
  }

  /** Every detail is numbered one past the details of its record saved before it. */
  ghost predicate NumberedPerRecord(ds: seq<WeighingDetail>) {
    forall k :: 0 <= k < |ds| ==> ds[k].detailId == NextDetailId(ds[..k], ds[k].recordId)
  }

  /** Saving through `SaveIngredientDetailAsync` keeps the table numbered per record. */
  lemma SavePreservesNumbering(ds: seq<WeighingDetail>, recordId: string, detail: WeighingDetail)
    requires NumberedPerRecord(ds)
    ensures NumberedPerRecord(ds + [SavedDetail(ds, recordId, detail)])
  {
    var ds' := ds + [SavedDetail(ds, recordId, detail)];
    forall k | 0 <= k < |ds'| ensures ds'[k].detailId == NextDetailId(ds'[..k], ds'[k].recordId) {
      if k < |ds| {
        assert ds'[k] == ds[k] && ds'[..k] == ds[..k];
        assert ds[k].detailId == NextDetailId(ds[..k], ds[k].recordId);
      } else {
        assert ds'[k] == SavedDetail(ds, recordId, detail) && ds'[..k] == ds;
      }
    }
  }

  lemma {:induction false} DetailsOfGrows(ds: seq<WeighingDetail>, i: nat, j: nat)
    requires i < j <= |ds|
    ensures |DetailsOf(ds[..j], ds[i].recordId)| >= |DetailsOf(ds[..i], ds[i].recordId)| + 1
    decreases j
  {
    var rid := ds[i].recordId;
    assert ds[..j] == ds[..j - 1] + [ds[j - 1]];
    DetailsOfAppend(ds[..j - 1], ds[j - 1], rid);
    if j - 1 > i {
      DetailsOfGrows(ds, i, j - 1);
    } else {
      assert ds[..j - 1] == ds[..i];
    }
  }

  /**
   * In a table numbered per record, two details of the same record never
   * share a DetailId (while the counts fit in 32 bits); details of
   * different records may.
   */
  lemma NumberedDetailIdsDistinct(ds: seq<WeighingDetail>, i: nat, j: nat)
    requires NumberedPerRecord(ds) && |ds| < Int32Max
    requires i < j < |ds| && ds[i].recordId == ds[j].recordId
    ensures ds[i].detailId != ds[j].detailId
  {
    var rid := ds[i].recordId;
    var a := |DetailsOf(ds[..i], rid)| + 1;
    var b := |DetailsOf(ds[..j], rid)| + 1;
    DetailsOfGrows(ds, i, j);
    assert |DetailsOf(ds[..j], rid)| <= j;
    assert ds[i].detailId == NextDetailId(ds[..i], rid);
    assert ds[j].detailId == NextDetailId(ds[..j], rid);
    DetailIdInjective(a, b);
  }

  /** Different counts give different DetailIds. */
  lemma DetailIdInjective(a: int, b: int)
    requires InInt32(a) && InInt32(b) && a != b
    ensures DetailPrefix + FormatD(a, 4) != DetailPrefix + FormatD(b, 4)
  {
    PrefixedNumberParses(DetailPrefix, a, 4);
    PrefixedNumberParses(DetailPrefix, b, 4);
  }

  /** The first detail of a record is DETAIL0001, whatever other records hold. */
  lemma FirstDetailId(ds: seq<WeighingDetail>, recordId: string)
    requires forall k :: 0 <= k < |ds| ==> ds[k].recordId != recordId
    ensures NextDetailId(ds, recordId) == "DETAIL0001"
  {
    DetailsOfNone(ds, recordId);
    assert NatDigits(1) == "1";
    assert "0" + "001" == "0001" && "0" + "01" == "001" && "0" + "1" == "01";
    assert PadZeros("1", 4) == PadZeros("01", 4) == PadZeros("001", 4) == PadZeros("0001", 4) == "0001";
  }

  lemma {:induction false} DetailsOfNone(ds: seq<WeighingDetail>, recordId: string)
    requires forall k :: 0 <= k < |ds| ==> ds[k].recordId != recordId
    ensures DetailsOf(ds, recordId) == []
  {
    if ds != [] {
      DetailsOfNone(ds[..|ds| - 1], recordId);
    }
  }

  // ---------------------------------------------------------------------
  // Quality metrics
  // ---------------------------------------------------------------------

  function AbsDeviation(d: WeighingDetail): (r: real)
    ensures r >= 0.0 && (r == Deviation(d) || r == -Deviation(d))
  {
    if Deviation(d) < 0.0 then -Deviation(d) else Deviation(d)
  }

  function CountWithin(ds: seq<WeighingDetail>): nat {
    if ds == [] then 0
    else CountWithin(ds[..|ds| - 1]) + (if IsWithinTolerance(ds[|ds| - 1]) then 1 else 0)
  }

  function CountOut(ds: seq<WeighingDetail>): nat {
    if ds == [] then 0
    else CountOut(ds[..|ds| - 1]) + (if !IsWithinTolerance(ds[|ds| - 1]) then 1 else 0)
  }

  /** Every detail is counted as in tolerance or out of it, never both. */
  lemma {:induction false} CountsPartition(ds: seq<WeighingDetail>)
    ensures CountWithin(ds) + CountOut(ds) == |ds|
  {
    if ds != [] {
      CountsPartition(ds[..|ds| - 1]);
    }
  }

  function SumAbsDeviation(ds: seq<WeighingDetail>): real {
    if ds == [] then 0.0 else SumAbsDeviation(ds[..|ds| - 1]) + AbsDeviation(ds[|ds| - 1])
  }

  /** `details.Max(d => Math.Abs(d.Deviation))`, and 0 for no details. */
  function MaxAbsDeviation(ds: seq<WeighingDetail>): (r: real)
    ensures r >= 0.0
    ensures forall k :: 0 <= k < |ds| ==> AbsDeviation(ds[k]) <= r
    ensures ds != [] ==> exists k :: 0 <= k < |ds| && AbsDeviation(ds[k]) == r
  {
    if ds == [] then 0.0
    else if |ds| == 1 then AbsDeviation(ds[0])
    else
      var m := MaxAbsDeviation(ds[..|ds| - 1]);
      assert forall k :: 0 <= k < |ds| - 1 ==> ds[..|ds| - 1][k] == ds[k];
      if AbsDeviation(ds[|ds| - 1]) > m then AbsDeviation(ds[|ds| - 1]) else m
  }

  function AverageAbsDeviation(ds: seq<WeighingDetail>): real {
    if ds == [] then 0.0 else SumAbsDeviation(ds) / (|ds| as real)
  }

  lemma {:induction false} SumAbsDeviationBounded(ds: seq<WeighingDetail>, bound: real)
    requires forall k :: 0 <= k < |ds| ==> AbsDeviation(ds[k]) <= bound
    ensures 0.0 <= SumAbsDeviation(ds) <= (|ds| as real) * bound
  {
    if ds != [] {
      var init := ds[..|ds| - 1];
      assert forall k :: 0 <= k < |init| ==> init[k] == ds[k];
      SumAbsDeviationBounded(init, bound);
      assert (|init| as real) * bound + bound == (|ds| as real) * bound;
    }
  }

  /** The mean absolute deviation lies between 0 and the worst one. */
  lemma AverageWithinMax(ds: seq<WeighingDetail>)
    ensures 0.0 <= AverageAbsDeviation(ds) <= MaxAbsDeviation(ds)
  {
    if ds != [] {
      var sum := SumAbsDeviation(ds);
      var m := MaxAbsDeviation(ds);
      var n := |ds| as real;
      assert 0.0 <= sum / n <= m by {
        SumAbsDeviationBounded(ds, m);
        MeanBounded(sum, n, m);
      }
    }
  }

  lemma MeanBounded(sum: real, n: real, bound: real)
    requires n > 0.0 && 0.0 <= sum <= n * bound
    ensures 0.0 <= sum / n <= bound
  {
    var a := sum / n;
    assert a * n == sum;
    MulStrict(a, bound, n);
    MulStrict(0.0, a, n);
  }

  /** `details.Select(d => d.RepetitionNumber).Distinct()`. */
  function RepetitionsOf(ds: seq<WeighingDetail>): (r: set<int>)
    ensures forall x :: x in r <==> exists k :: 0 <= k < |ds| && ds[k].repetitionNumber == x
  {
    if ds == [] then {}
    else
      var init := ds[..|ds| - 1];
      assert forall k :: 0 <= k < |init| ==> init[k] == ds[k];
      RepetitionsOf(init) + {ds[|ds| - 1].repetitionNumber}
  }

  /** There are no more distinct repetitions than details, and at least one when there is any detail. */
  lemma {:induction false} RepetitionsCount(ds: seq<WeighingDetail>)
    ensures |RepetitionsOf(ds)| <= |ds|
    ensures ds != [] ==> |RepetitionsOf(ds)| >= 1
  {
    if ds != [] {
      var init := ds[..|ds| - 1];
      RepetitionsCount(init);
      var x := ds[|ds| - 1].repetitionNumber;
      if x in RepetitionsOf(init) {
        assert RepetitionsOf(ds) == RepetitionsOf(init);
      } else {
        assert |RepetitionsOf(init) + {x}| == |RepetitionsOf(init)| + 1;
      }
    }
  }

  // ---------------------------------------------------------------------
  // Records
  // ---------------------------------------------------------------------

  /** The record `StartWeighingRecordAsync` appends for a session. */
  function StartedRecord(session: Session, rs: seq<WeighingRecord>, now: int): WeighingRecord {
    WeighingRecord(
      recordId := NextRecordId(rs),
      batchId := session.batchId,
      recipeId := session.recipeId,
      recipeCode := session.recipeId,
      recipeName := session.recipeName,
      operatorName := session.operatorName,
      sessionStartTime := session.sessionStarted.GetOr(now),
      sessionEndTime := None,
      totalRepetitions := session.totalRepetitions,
      completedRepetitions := 0,
      status := RecordStatusInProgress,
      abortReason := None,
      abortedBy := None,
      abortedDate := None,
      totalIngredientsWeighed := 0,
      ingredientsWithinTolerance := 0,
      ingredientsOutOfTolerance := 0,
      averageDeviation := 0.0,
      maxDeviation := 0.0,
      createdDate := now,
      createdBy := session.operatorName)
  }

  /**
   * A new record is in progress with nothing weighed, open, under an
   * unused identifier, and starts when the session did (or now).
   */
  lemma StartedRecordSpec(session: Session, rs: seq<WeighingRecord>, now: int)
    requires MaxRecordNumber(rs) < Int32Max
    ensures
      var r := StartedRecord(session, rs, now);
      r.status == RecordStatusInProgress && r.completedRepetitions == 0 && r.totalIngredientsWeighed == 0
      && Duration(r) == 0 && CompliancePercentage(r) == 0.0
      && r.recordId == NextRecordId(rs) && (forall k :: 0 <= k < |rs| ==> rs[k].recordId != r.recordId)
      && r.sessionStartTime == (if session.sessionStarted.Some? then session.sessionStarted.value else now)
      && r.createdBy == session.operatorName && r.totalRepetitions == session.totalRepetitions
  {
    NextRecordIdFresh(rs);
  }

  function RecordIndex(rs: seq<WeighingRecord>, recordId: string): (r: Option<nat>)
    ensures r.Some? ==> r.value < |rs| && rs[r.value].recordId == recordId
    ensures r.None? <==> forall k :: 0 <= k < |rs| ==> rs[k].recordId != recordId
  {
    FindFirst(rs, (x: WeighingRecord) => x.recordId == recordId)
  }

  /** The record as `FinalizeReportAsync` rewrites it from its details. */
  function Finalized(r: WeighingRecord, ds: seq<WeighingDetail>, isAborted: bool,
    abortReason: Option<string>, abortedBy: Option<string>, now: int): WeighingRecord
  {
    r.(sessionEndTime := Some(now),
       status := if isAborted then RecordStatusAborted else RecordStatusCompleted,
       completedRepetitions := |RepetitionsOf(ds)|,
       abortReason := if isAborted then abortReason else r.abortReason,
       abortedBy := if isAborted then abortedBy else r.abortedBy,
       abortedDate := if isAborted then Some(now) else r.abortedDate,
       totalIngredientsWeighed := |ds|,
       ingredientsWithinTolerance := CountWithin(ds),
       ingredientsOutOfTolerance := CountOut(ds),
       averageDeviation := AverageAbsDeviation(ds),
       maxDeviation := MaxAbsDeviation(ds))
  }

  datatype ReportChange = ReportChange(ok: bool, records: seq<WeighingRecord>)

  function FinalizeOutcome(rs: seq<WeighingRecord>, ds: seq<WeighingDetail>, recordId: string, isAborted: bool,
    abortReason: Option<string>, abortedBy: Option<string>, now: int): ReportChange
  {
    match RecordIndex(rs, recordId)
    case None => ReportChange(false, rs)
    case Some(k) => ReportChange(true, rs[k := Finalized(rs[k], DetailsOf(ds, recordId), isAborted, abortReason, abortedBy, now)])
  }

  /**
   * Finalising fails, changing nothing, exactly when the record is absent.
   * Otherwise the first row with that Id is closed: Aborted exactly when
   * asked (and only then are the abort fields set), its counts split the
   * record's details into in and out of tolerance, its repetitions are the
   * distinct ones among them, its compliance is a percentage and its
   * average deviation is at most its worst. No other row changes.
   */
  lemma FinalizeSpec(rs: seq<WeighingRecord>, ds: seq<WeighingDetail>, recordId: string, isAborted: bool,
    abortReason: Option<string>, abortedBy: Option<string>, now: int)
    ensures var o := FinalizeOutcome(rs, ds, recordId, isAborted, abortReason, abortedBy, now);
      |o.records| == |rs|
      && (o.ok <==> exists k :: 0 <= k < |rs| && rs[k].recordId == recordId)
      && (!o.ok ==> o.records == rs)
    ensures var o := FinalizeOutcome(rs, ds, recordId, isAborted, abortReason, abortedBy, now);
      o.ok ==> (
        var k := RecordIndex(rs, recordId).value;
        var r := o.records[k];
        var mine := DetailsOf(ds, recordId);
        (forall j :: 0 <= j < |rs| && j != k ==> o.records[j] == rs[j])
        && r.recordId == recordId && r.sessionEndTime == Some(now)
        && (r.status == RecordStatusAborted <==> isAborted)
        && (isAborted ==> r.abortReason == abortReason && r.abortedBy == abortedBy && r.abortedDate == Some(now))
        && (!isAborted ==> (r.status == RecordStatusCompleted && r.abortReason == rs[k].abortReason
            && r.abortedBy == rs[k].abortedBy && r.abortedDate == rs[k].abortedDate))
        && r.totalIngredientsWeighed == |mine|
        && r.ingredientsWithinTolerance + r.ingredientsOutOfTolerance == r.totalIngredientsWeighed
        && 0 <= r.completedRepetitions <= r.totalIngredientsWeighed
        && (r.totalIngredientsWeighed > 0 ==> r.completedRepetitions >= 1)
        && 0.0 <= CompliancePercentage(r) <= 100.0
        && 0.0 <= r.averageDeviation <= r.maxDeviation)
  {
    var i := RecordIndex(rs, recordId);
    if i.Some? {
      var k := i.value;
      var mine := DetailsOf(ds, recordId);
      var r := Finalized(rs[k], mine, isAborted, abortReason, abortedBy, now);
      CountsPartition(mine);
      RepetitionsCount(mine);
      AverageWithinMax(mine);
      CompliancePercentageSpec(r);
    }
  }

  // ---------------------------------------------------------------------
  // The service
  // ---------------------------------------------------------------------

  class ReportService {
    var records: seq<WeighingRecord>
    var details: seq<WeighingDetail>

    constructor (records: seq<WeighingRecord>, details: seq<WeighingDetail>)
      ensures this.records == records && this.details == details
    {
      this.records := records;
      this.details := details;
    }

    /** `StartWeighingRecordAsync`: appends the session's record under the next Id and returns that Id. */
    method StartWeighingRecord(session: Session, now: int) returns (recordId: string)
      modifies this
      ensures recordId == NextRecordId(old(records))
      ensures records == old(records) + [StartedRecord(session, old(records), now)]
      ensures details == old(details)
    {
      recordId := NextRecordId(records);
      var record := StartedRecord(session, records, now);
      records := records + [record];
    }

    /** `SaveIngredientDetailAsync`: numbers the detail within its record and appends it. */
    method SaveIngredientDetail(recordId: string, detail: WeighingDetail) returns (saved: WeighingDetail)
      modifies this
      ensures saved == SavedDetail(old(details), recordId, detail)
      ensures details == old(details) + [saved] && records == old(records)
      ensures NumberedPerRecord(old(details)) ==> NumberedPerRecord(details)
    {
      var existing := DetailsOf(details, recordId);
      saved := detail.(detailId := DetailPrefix + FormatD(|existing| + 1, 4));
      saved := saved.(recordId := recordId);
      if NumberedPerRecord(details) {
        SavePreservesNumbering(details, recordId, detail);
      }
      details := details + [saved];
    }

    /** The field-by-field rewrite of the record in `FinalizeReportAsync`. */
    method FinalizedRecord(record: WeighingRecord, ds: seq<WeighingDetail>, isAborted: bool,
      abortReason: Option<string>, abortedBy: Option<string>, now: int) returns (r: WeighingRecord)
      ensures r == Finalized(record, ds, isAborted, abortReason, abortedBy, now)
    {
      r := record.(sessionEndTime := Some(now));
      r := r.(status := if isAborted then RecordStatusAborted else RecordStatusCompleted);
      r := r.(completedRepetitions := |RepetitionsOf(ds)|);
      if isAborted {
        r := r.(abortReason := abortReason, abortedBy := abortedBy, abortedDate := Some(now));
      }
      r := r.(totalIngredientsWeighed := |ds|);
      r := r.(ingredientsWithinTolerance := CountWithin(ds));
      r := r.(ingredientsOutOfTolerance := CountOut(ds));
      r := r.(averageDeviation := if |ds| > 0 then SumAbsDeviation(ds) / (|ds| as real) else 0.0);
      r := r.(maxDeviation := MaxAbsDeviation(ds));
    }

    /** `FinalizeReportAsync`: rewrites the record field by field and stores it back. */
    method FinalizeReport(recordId: string, isAborted: bool, abortReason: Option<string>, abortedBy: Option<string>,
      now: int) returns (ok: bool)
      modifies this
      ensures ReportChange(ok, records) ==
        FinalizeOutcome(old(records), old(details), recordId, isAborted, abortReason, abortedBy, now)
      ensures details == old(details)
    {
      var index := RecordIndex(records, recordId);
      if index.None? {
        return false;
      }
      var ds := DetailsOf(details, recordId);
      var record := FinalizedRecord(records[index.value], ds, isAborted, abortReason, abortedBy, now);
      records := records[index.value := record];
      return true;
    }

    function GetRecordById(recordId: string): (r: Option<WeighingRecord>)
      reads this
      ensures r.Some? ==> r.value in records && r.value.recordId == recordId
      ensures r.None? <==> forall k :: 0 <= k < |records| ==> records[k].recordId != recordId
    {
      match RecordIndex(records, recordId)
      case None => None
      case Some(k) => Some(records[k])
    }

    function GetDetailsByRecordId(recordId: string): seq<WeighingDetail>
      reads this
    {
      DetailsOf(details, recordId)
    }
  }
}
