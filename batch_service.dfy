/**
 * The batch table and its lifecycle (Components/Services/BatchService.cs):
 * Pending -> InProgress -> Completed, or Aborted from any state; at most five
 * batches in progress at once; `BATCHnnn` identifiers. Each command is
 * first stated as a function from the old table to a success flag and the
 * new table; the service class runs the source's loops and is proved
 * against those functions.
 */
module BatchStore {
  import opened Common
  import opened Batches
  import opened Recipes
  import opened RecipeStore

  const MaxActiveBatches: nat := 5

  /** An empty text cell reads back as null. */
  function BlankAsNone(o: Option<string>): (r: Option<string>)
    ensures r != Some("")
    ensures o != Some("") ==> r == o
  {
    if o == Some("") then None else o
  }

  /**
   * A batch as it reads back from its row: StartedBy, AbortReason, AbortedBy
   * and Notes are written as `x ?? ""` and an empty cell reads as null.
   */
  function AsStored(b: Batch): Batch {
    b.(startedBy := BlankAsNone(b.startedBy), abortReason := BlankAsNone(b.abortReason),
       abortedBy := BlankAsNone(b.abortedBy), notes := BlankAsNone(b.notes))
  }

  /** Storing keeps every column but the four nullable texts, and storing twice changes nothing more. */
  lemma AsStoredSpec(b: Batch)
    ensures AsStored(AsStored(b)) == AsStored(b)
    ensures AsStored(b).batchId == b.batchId && AsStored(b).status == b.status
    ensures AsStored(b).currentRepetition == b.currentRepetition
    ensures AsStored(b).totalRepetitions == b.totalRepetitions
    ensures AsStored(b).startedBy != Some("") && AsStored(b).abortedBy != Some("")
    ensures (b.startedBy != Some("") && b.abortReason != Some("") && b.abortedBy != Some("")
      && b.notes != Some("")) ==> AsStored(b) == b
  {
  }

  /** The table with a success flag: what a command returns and what it leaves. */
  datatype TableChange = TableChange(ok: bool, batches: seq<Batch>)

  function IdIs(id: string): Batch -> bool {
    (b: Batch) => b.batchId == id
  }

  /** `FirstOrDefault(b => b.BatchId == id)`, as a position. */
  function FindBatch(bs: seq<Batch>, id: string): Option<nat> {
    FindFirst(bs, IdIs(id))
  }

  function BatchById(bs: seq<Batch>, id: string): Option<Batch> {
    match FindBatch(bs, id)
    case None => None
    case Some(k) => Some(bs[k])
  }

  /** `GetBatchesByStatusAsync`: the batches with that status, in table order. */
  function BatchesWithStatus(bs: seq<Batch>, status: string): (r: seq<Batch>)
    ensures forall k :: 0 <= k < |r| ==> r[k].status == status && r[k] in bs
  {
    if bs == [] then []
    else
      var init := BatchesWithStatus(bs[..|bs| - 1], status);
      init + (if bs[|bs| - 1].status == status then [bs[|bs| - 1]] else [])
  }

  /** No batch with the status is left out: the result holds exactly the batches with it. */
  lemma {:induction false} BatchesWithStatusComplete(bs: seq<Batch>, status: string)
    ensures forall k :: 0 <= k < |bs| && bs[k].status == status ==> bs[k] in BatchesWithStatus(bs, status)
    ensures forall b :: b in BatchesWithStatus(bs, status) <==> b in bs && b.status == status
  {
    if bs != [] {
      var n := |bs| - 1;
      BatchesWithStatusComplete(bs[..n], status);
      assert bs == bs[..n] + [bs[n]];
      assert forall k :: 0 <= k < n ==> bs[..n][k] == bs[k];
      var r := BatchesWithStatus(bs, status);
      forall b | b in r ensures b in bs && b.status == status {
        var i :| 0 <= i < |r| && r[i] == b;
      }
    }
  }

  function ActiveCount(bs: seq<Batch>): nat {
    |BatchesWithStatus(bs, StatusInProgress)|
  }

  predicate CanStart(bs: seq<Batch>) {
    ActiveCount(bs) < MaxActiveBatches
  }

  /** Replacing one row changes a status count by that row's old and new status only. */
  lemma {:induction false} CountAfterReplace(bs: seq<Batch>, k: nat, x: Batch, status: string)
    requires k < |bs|
    ensures |BatchesWithStatus(bs[k := x], status)| ==
      |BatchesWithStatus(bs, status)| - (if bs[k].status == status then 1 else 0) + (if x.status == status then 1 else 0)
  {
    var n := |bs| - 1;
    assert bs[k := x][..n] == if k == n then bs[..n] else bs[..n][k := x];
    if k < n {
      CountAfterReplace(bs[..n], k, x, status);
    }
  }

  // ---------------------------------------------------------------------
  // Identifiers
  // ---------------------------------------------------------------------

  /** The number in a `BATCH<digits>` identifier, when `int.TryParse` accepts its suffix. */
  function BatchNumber(id: string): Option<int> {
    if StartsWith(id, "BATCH") then ParseInt32(id[5..]) else None
  }

  /**
   * `maxId`: 0, raised by every parsed batch number; so it is 0 or the
   * number some batch carries, and no parsed number exceeds it.
   */
  function MaxBatchNumber(bs: seq<Batch>): (r: int)
    ensures 0 <= r <= Int32Max
    ensures forall k :: 0 <= k < |bs| && BatchNumber(bs[k].batchId).Some? ==> BatchNumber(bs[k].batchId).value <= r
    ensures r == 0 || exists k :: 0 <= k < |bs| && BatchNumber(bs[k].batchId) == Some(r)
    ensures (forall k :: 0 <= k < |bs| ==> BatchNumber(bs[k].batchId).None?) ==> r == 0
  {
    if bs == [] then 0
    else
      var n := |bs| - 1;
      var m := MaxBatchNumber(bs[..n]);
      assert forall k :: 0 <= k < n ==> bs[..n][k] == bs[k];
      MaxBatchExtend(bs, m);
      RaisedMax(m, BatchNumber(bs[n].batchId))
  }

  /** `maxId = Math.Max(maxId, id)` when the suffix parsed, `maxId` otherwise. */
  function RaisedMax(m: int, parsed: Option<int>): int {
    match parsed
    case None => m
    case Some(v) => if v > m then v else m
  }

  /** Raising the maximum of all batches but the last by the last one's number keeps its properties. */
  lemma MaxBatchExtend(bs: seq<Batch>, m: int)
    requires bs != [] && 0 <= m <= Int32Max
    requires forall k :: 0 <= k < |bs| - 1 && BatchNumber(bs[k].batchId).Some? ==> BatchNumber(bs[k].batchId).value <= m
    requires m == 0 || exists k :: 0 <= k < |bs| - 1 && BatchNumber(bs[k].batchId) == Some(m)
    requires (forall k :: 0 <= k < |bs| - 1 ==> BatchNumber(bs[k].batchId).None?) ==> m == 0
    ensures var r := RaisedMax(m, BatchNumber(bs[|bs| - 1].batchId));
      0 <= r <= Int32Max
      && (forall k :: 0 <= k < |bs| && BatchNumber(bs[k].batchId).Some? ==> BatchNumber(bs[k].batchId).value <= r)
      && (r == 0 || exists k :: 0 <= k < |bs| && BatchNumber(bs[k].batchId) == Some(r))
      && ((forall k :: 0 <= k < |bs| ==> BatchNumber(bs[k].batchId).None?) ==> r == 0)
  {
    var n := |bs| - 1;
    var p := BatchNumber(bs[n].batchId);
    if p.Some? && p.value > m {
      assert BatchNumber(bs[n].batchId) == Some(RaisedMax(m, p));
    }
  }

  /** `$"BATCH{(maxId + 1).ToString("D3")}"`. */
  function NextBatchId(bs: seq<Batch>): string {
    "BATCH" + FormatD(Inc32(MaxBatchNumber(bs)), 3)
  }

  /**
   * The next identifier carries the number one past the largest batch
   * number in the table, so no batch has it (short of 32-bit wrap-around).
   */
  lemma NextBatchIdFresh(bs: seq<Batch>)
    requires MaxBatchNumber(bs) < Int32Max
    ensures BatchNumber(NextBatchId(bs)) == Some(MaxBatchNumber(bs) + 1)
    ensures forall k :: 0 <= k < |bs| ==> bs[k].batchId != NextBatchId(bs)
  {
    var n := MaxBatchNumber(bs) + 1;
    PrefixedNumberParses("BATCH", n, 3);
    forall k | 0 <= k < |bs| ensures bs[k].batchId != NextBatchId(bs) {
      var id := bs[k].batchId;
      assert BatchNumber(id) != Some(n);
    }
  }

  /** The first batch ever created is BATCH001. */
  lemma FirstBatchId()
    ensures NextBatchId([]) == "BATCH001"
  {
    assert NatDigits(1) == "1";
    assert PadZeros("1", 3) == PadZeros("01", 3) == "001";
  }

  // ---------------------------------------------------------------------
  // Commands on the table
  // ---------------------------------------------------------------------

  /** `UpdateBatchAsync(b)`: the first row with b's Id takes b's columns. */
  function Updated(bs: seq<Batch>, b: Batch): TableChange {
    match FindBatch(bs, b.batchId)
    case None => TableChange(false, bs)
    case Some(k) => TableChange(true, bs[k := AsStored(b)])
  }

  /** `DeleteBatchAsync(id)`: the first row with that Id goes. */
  function Deleted(bs: seq<Batch>, id: string): TableChange {
    match FindBatch(bs, id)
    case None => TableChange(false, bs)
    case Some(k) => TableChange(true, bs[..k] + bs[k + 1..])
  }

  /** Update and delete act on the first row with the Id only, and fail, changing nothing, when there is none. */
  lemma UpdatedDeletedSpec(bs: seq<Batch>, b: Batch, id: string)
    ensures Updated(bs, b).ok <==> exists k :: 0 <= k < |bs| && bs[k].batchId == b.batchId
    ensures Deleted(bs, id).ok <==> exists k :: 0 <= k < |bs| && bs[k].batchId == id
    ensures !Updated(bs, b).ok ==> Updated(bs, b).batches == bs
    ensures !Deleted(bs, id).ok ==> Deleted(bs, id).batches == bs
    ensures Updated(bs, b).ok ==> exists k :: (0 <= k < |bs| && bs[k].batchId == b.batchId
      && (forall j :: 0 <= j < k ==> bs[j].batchId != b.batchId)
      && Updated(bs, b).batches == bs[k := AsStored(b)])
    ensures Deleted(bs, id).ok ==> exists k :: (0 <= k < |bs| && bs[k].batchId == id
      && (forall j :: 0 <= j < k ==> bs[j].batchId != id)
      && Deleted(bs, id).batches == bs[..k] + bs[k + 1..])
  {
    var u := FindBatch(bs, b.batchId);
    var d := FindBatch(bs, id);
    if u.Some? {
      forall j | 0 <= j < u.value ensures bs[j].batchId != b.batchId {
        assert !IdIs(b.batchId)(bs[j]);
      }
    } else {
      forall j | 0 <= j < |bs| ensures bs[j].batchId != b.batchId {
        assert !IdIs(b.batchId)(bs[j]);
      }
    }
    if d.Some? {
      forall j | 0 <= j < d.value ensures bs[j].batchId != id {
        assert !IdIs(id)(bs[j]);
      }
    } else {
      forall j | 0 <= j < |bs| ensures bs[j].batchId != id {
        assert !IdIs(id)(bs[j]);
      }
    }
  }

  function StartedBatch(b: Batch, startedBy: string, now: int): Batch {
    b.(status := StatusInProgress, startedBy := Some(startedBy), startedDate := Some(now), currentRepetition := 0)
  }

  function CompletedBatch(b: Batch, now: int): Batch {
    b.(status := StatusCompleted, completedDate := Some(now), currentRepetition := b.totalRepetitions)
  }

  function AbortedBatch(b: Batch, abortedBy: string, reason: string, now: int): Batch {
    b.(status := StatusAborted, abortedBy := Some(abortedBy), abortedDate := Some(now), abortReason := Some(reason))
  }

  /** The repetition count is set, and reaching the total also completes the batch. */
  function ProgressedBatch(b: Batch, repetition: int, now: int): Batch {
    if repetition >= b.totalRepetitions then
      b.(currentRepetition := repetition, status := StatusCompleted, completedDate := Some(now))
    else b.(currentRepetition := repetition)
  }

  function StartOutcome(bs: seq<Batch>, id: string, startedBy: string, now: int): TableChange {
    match BatchById(bs, id)
    case None => TableChange(false, bs)
    case Some(b) =>
      if b.status != StatusPending || !CanStart(bs) then TableChange(false, bs)
      else Updated(bs, StartedBatch(b, startedBy, now))
  }

  function CompleteOutcome(bs: seq<Batch>, id: string, now: int): TableChange {
    match BatchById(bs, id)
    case None => TableChange(false, bs)
    case Some(b) =>
      if b.status != StatusInProgress then TableChange(false, bs)
      else Updated(bs, CompletedBatch(b, now))
  }

  function AbortOutcome(bs: seq<Batch>, id: string, abortedBy: string, reason: string, now: int): TableChange {
    match BatchById(bs, id)
    case None => TableChange(false, bs)
    case Some(b) => Updated(bs, AbortedBatch(b, abortedBy, reason, now))
  }

  function ProgressOutcome(bs: seq<Batch>, id: string, repetition: int, now: int): TableChange {
    match BatchById(bs, id)
    case None => TableChange(false, bs)
    case Some(b) => Updated(bs, ProgressedBatch(b, repetition, now))
  }

  /** A row looked up by Id and written back under the same Id lands where it was found. */
  lemma UpdateFound(bs: seq<Batch>, id: string, x: Batch)
    requires FindBatch(bs, id).Some? && x.batchId == id
    ensures Updated(bs, x) == TableChange(true, bs[FindBatch(bs, id).value := AsStored(x)])
    ensures FindBatch(bs[FindBatch(bs, id).value := AsStored(x)], id) == FindBatch(bs, id)
  {
    var k := FindBatch(bs, id).value;
    var t := bs[k := AsStored(x)];
    var f := FindFirst(t, IdIs(id));
    assert IdIs(id)(t[k]);
    forall j | 0 <= j < k ensures !IdIs(id)(t[j]) {
      assert t[j] == bs[j];
    }
    FirstMatchAt(t, IdIs(id), k);
  }

  /**
   * Starting needs a Pending batch and fewer than five in progress; it then
   * puts the batch in progress at repetition 0, so the number in progress
   * grows by one and never passes five.
   */
  lemma StartSpec(bs: seq<Batch>, id: string, startedBy: string, now: int)
    ensures StartOutcome(bs, id, startedBy, now).ok <==>
      BatchById(bs, id).Some? && BatchById(bs, id).value.status == StatusPending && ActiveCount(bs) < MaxActiveBatches
    ensures !StartOutcome(bs, id, startedBy, now).ok ==> StartOutcome(bs, id, startedBy, now).batches == bs
    ensures StartOutcome(bs, id, startedBy, now).ok ==>
      var row := BatchById(StartOutcome(bs, id, startedBy, now).batches, id);
      row == Some(AsStored(StartedBatch(BatchById(bs, id).value, startedBy, now)))
      && row.value.status == StatusInProgress && row.value.currentRepetition == 0
      && row.value.startedDate == Some(now)
      && ActiveCount(StartOutcome(bs, id, startedBy, now).batches) == ActiveCount(bs) + 1
    ensures ActiveCount(bs) <= MaxActiveBatches ==>
      ActiveCount(StartOutcome(bs, id, startedBy, now).batches) <= MaxActiveBatches
  {
    var o := StartOutcome(bs, id, startedBy, now);
    if o.ok {
      var k := FindBatch(bs, id).value;
      var x := StartedBatch(bs[k], startedBy, now);
      UpdateFound(bs, id, x);
      CountAfterReplace(bs, k, AsStored(x), StatusInProgress);
    }
  }

  /** Completing needs a batch in progress; it marks it Completed with every repetition done. */
  lemma CompleteSpec(bs: seq<Batch>, id: string, now: int)
    ensures CompleteOutcome(bs, id, now).ok <==>
      BatchById(bs, id).Some? && BatchById(bs, id).value.status == StatusInProgress
    ensures !CompleteOutcome(bs, id, now).ok ==> CompleteOutcome(bs, id, now).batches == bs
    ensures CompleteOutcome(bs, id, now).ok ==>
      var row := BatchById(CompleteOutcome(bs, id, now).batches, id);
      row == Some(AsStored(CompletedBatch(BatchById(bs, id).value, now)))
      && row.value.status == StatusCompleted && row.value.currentRepetition == row.value.totalRepetitions
      && row.value.completedDate == Some(now)
  {
    if CompleteOutcome(bs, id, now).ok {
      var k := FindBatch(bs, id).value;
      UpdateFound(bs, id, CompletedBatch(bs[k], now));
    }
  }

  /** Aborting succeeds for every existing batch, whatever its status. */
  lemma AbortSpec(bs: seq<Batch>, id: string, abortedBy: string, reason: string, now: int)
    ensures AbortOutcome(bs, id, abortedBy, reason, now).ok <==> BatchById(bs, id).Some?
    ensures !AbortOutcome(bs, id, abortedBy, reason, now).ok ==> AbortOutcome(bs, id, abortedBy, reason, now).batches == bs
    ensures AbortOutcome(bs, id, abortedBy, reason, now).ok ==>
      var row := BatchById(AbortOutcome(bs, id, abortedBy, reason, now).batches, id);
      row == Some(AsStored(AbortedBatch(BatchById(bs, id).value, abortedBy, reason, now)))
      && row.value.status == StatusAborted && row.value.abortedDate == Some(now)
      && row.value.abortedBy == BlankAsNone(Some(abortedBy)) && row.value.abortReason == BlankAsNone(Some(reason))
  {
    if AbortOutcome(bs, id, abortedBy, reason, now).ok {
      var k := FindBatch(bs, id).value;
      UpdateFound(bs, id, AbortedBatch(bs[k], abortedBy, reason, now));
    }
  }

  /** Progress sets the repetition; reaching the total also marks the batch Completed, else the status stays. */
  lemma ProgressSpec(bs: seq<Batch>, id: string, repetition: int, now: int)
    ensures ProgressOutcome(bs, id, repetition, now).ok <==> BatchById(bs, id).Some?
    ensures !ProgressOutcome(bs, id, repetition, now).ok ==> ProgressOutcome(bs, id, repetition, now).batches == bs
    ensures ProgressOutcome(bs, id, repetition, now).ok ==>
      var old_ := BatchById(bs, id).value;
      var row := BatchById(ProgressOutcome(bs, id, repetition, now).batches, id);
      row.Some? && row.value.currentRepetition == repetition
      && row.value.status == (if repetition >= old_.totalRepetitions then StatusCompleted else old_.status)
  {
    if ProgressOutcome(bs, id, repetition, now).ok {
      var k := FindBatch(bs, id).value;
      UpdateFound(bs, id, ProgressedBatch(bs[k], repetition, now));
    }
  }

  /**
   * The closing pair of calls of a weighing session: once the final
   * progress update has already marked the batch Completed, the completion
   * that follows fails its InProgress guard and changes nothing.
   */
  lemma CompleteAfterFinalProgress(bs: seq<Batch>, id: string, repetition: int, now1: int, now2: int)
    requires BatchById(bs, id).Some? && repetition >= BatchById(bs, id).value.totalRepetitions
    ensures
      var after := ProgressOutcome(bs, id, repetition, now1).batches;
      CompleteOutcome(after, id, now2) == TableChange(false, after)
      && BatchById(after, id).Some? && BatchById(after, id).value.status == StatusCompleted
  {
    var k := FindBatch(bs, id).value;
    UpdateFound(bs, id, ProgressedBatch(bs[k], repetition, now1));
  }

  /** The row `CreateBatchAsync` appends: the next Id, the recipe's name when it is known, Pending at repetition 0. */
  function CreatedBatch(batch: Batch, bs: seq<Batch>, recipes: seq<Recipe>, now: int): Batch {
    var name := match RecipeById(recipes, batch.recipeId)
      case Some(r) => r.recipeName
      case None => batch.recipeName;
    batch.(batchId := NextBatchId(bs), recipeName := name, status := StatusPending, currentRepetition := 0,
      createdDate := now)
  }

  /** A created batch is pending at repetition 0 under an Id no batch in the table has. */
  lemma CreatedBatchSpec(batch: Batch, bs: seq<Batch>, recipes: seq<Recipe>, now: int)
    requires MaxBatchNumber(bs) < Int32Max
    ensures
      var c := AsStored(CreatedBatch(batch, bs, recipes, now));
      c.status == StatusPending && c.currentRepetition == 0 && c.createdDate == now
      && (forall k :: 0 <= k < |bs| ==> bs[k].batchId != c.batchId)
      && c.recipeName == (if RecipeById(recipes, batch.recipeId).Some? then RecipeById(recipes, batch.recipeId).value.recipeName
                          else batch.recipeName)
      && c.totalRepetitions == batch.totalRepetitions && c.recipeId == batch.recipeId
  {
    NextBatchIdFresh(bs);
  }

  // ---------------------------------------------------------------------
  // The service
  // ---------------------------------------------------------------------

  class BatchService {
    var batches: seq<Batch>
    const recipeService: RecipeService

    constructor (batches: seq<Batch>, recipeService: RecipeService)
      ensures this.batches == batches && this.recipeService == recipeService
    {
      this.batches := batches;
      this.recipeService := recipeService;
    }

    function GetBatchById(id: string): Option<Batch>
      reads this
    {
      BatchById(batches, id)
    }

    function CanStartBatch(): bool
      reads this
    {
      CanStart(batches)
    }

    /** `CreateBatchAsync`: scans the table for the largest batch number, then appends the new row. */
    method CreateBatch(batch: Batch, now: int) returns (id: string)
      modifies this
      ensures id == NextBatchId(old(batches))
      ensures batches == old(batches) + [AsStored(CreatedBatch(batch, old(batches), recipeService.recipes, now))]
    {
      var maxId := 0;
      var i := 0;
      while i < |batches|
        invariant 0 <= i <= |batches|
        invariant maxId == MaxBatchNumber(batches[..i])
      {
        assert batches[..i + 1][..i] == batches[..i];
        var b := batches[i];
        assert MaxBatchNumber(batches[..i + 1]) == RaisedMax(maxId, BatchNumber(b.batchId));
        if StartsWith(b.batchId, "BATCH") {
          var parsed := ParseInt32(b.batchId[5..]);
          if parsed.Some? && parsed.value > maxId {
            maxId := parsed.value;
          }
        }
        i := i + 1;
      }
      assert batches[..i] == batches;
      id := "BATCH" + FormatD(Inc32(maxId), 3);
      var name := batch.recipeName;
      var recipe := recipeService.GetRecipeById(batch.recipeId);
      if recipe.Some? {
        name := recipe.value.recipeName;
      }
      var created := batch.(batchId := id, recipeName := name, status := StatusPending, currentRepetition := 0,
        createdDate := now);
      batches := batches + [AsStored(created)];
    }

    /** `UpdateBatchAsync`: the loop stops at the first row with the Id. */
    method UpdateBatch(b: Batch) returns (ok: bool)
      modifies this
      ensures TableChange(ok, batches) == Updated(old(batches), b)
    {
      var i := 0;
      while i < |batches|
        invariant 0 <= i <= |batches| && batches == old(batches)
        invariant forall j :: 0 <= j < i ==> !IdIs(b.batchId)(batches[j])
      {
        if batches[i].batchId == b.batchId {
          FirstMatchAt(batches, IdIs(b.batchId), i);
          batches := batches[i := AsStored(b)];
          return true;
        }
        i := i + 1;
      }
      return false;
    }

    /** `DeleteBatchAsync`: removes the first row with the Id. */
    method DeleteBatch(id: string) returns (ok: bool)
      modifies this
      ensures TableChange(ok, batches) == Deleted(old(batches), id)
    {
      var i := 0;
      while i < |batches|
        invariant 0 <= i <= |batches| && batches == old(batches)
        invariant forall j :: 0 <= j < i ==> !IdIs(id)(batches[j])
      {
        if batches[i].batchId == id {
          FirstMatchAt(batches, IdIs(id), i);
          batches := batches[..i] + batches[i + 1..];
          return true;
        }
        i := i + 1;
      }
      return false;
    }

    method StartBatch(id: string, startedBy: string, now: int) returns (ok: bool)
      modifies this
      ensures TableChange(ok, batches) == StartOutcome(old(batches), id, startedBy, now)
    {
      var found := GetBatchById(id);
      if found.None? || found.value.status != StatusPending {
        return false;
      }
      if !CanStartBatch() {
        return false;
      }
      ok := UpdateBatch(StartedBatch(found.value, startedBy, now));
    }

    method CompleteBatch(id: string, now: int) returns (ok: bool)
      modifies this
      ensures TableChange(ok, batches) == CompleteOutcome(old(batches), id, now)
    {
      var found := GetBatchById(id);
      if found.None? || found.value.status != StatusInProgress {
        return false;
      }
      ok := UpdateBatch(CompletedBatch(found.value, now));
    }

    method AbortBatch(id: string, abortedBy: string, reason: string, now: int) returns (ok: bool)
      modifies this
      ensures TableChange(ok, batches) == AbortOutcome(old(batches), id, abortedBy, reason, now)
    {
      var found := GetBatchById(id);
      if found.None? {
        return false;
      }
      ok := UpdateBatch(AbortedBatch(found.value, abortedBy, reason, now));
    }

    method UpdateRepetitionProgress(id: string, repetition: int, now: int) returns (ok: bool)
      modifies this
      ensures TableChange(ok, batches) == ProgressOutcome(old(batches), id, repetition, now)
    {
      var found := GetBatchById(id);
      if found.None? {
        return false;
      }
      ok := UpdateBatch(ProgressedBatch(found.value, repetition, now));
    }
  }
}
