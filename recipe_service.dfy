/**
 * The recipe store (Components/Services/RecipeService.cs) over in-memory
 * tables: the Recipes table as a list of parsed recipes, the
 * RecipeIngredients table as a list of raw rows whose typed cells may fail
 * to read, the per-recipe ingredient query with its skip rules and its sort,
 * and the per-row accept/skip rules of the spreadsheet import.
 */
module RecipeStore {
  import opened Common
  import opened Recipes

  /** Reading a typed cell (`GetValue<T>()`, `GetDateTime()`): a value, or the exception's message. */
  datatype CellRead<T> = Read(value: T) | Fails(message: string)

  /** The ten cells of a RecipeIngredients row; an empty cell reads as "". */
  datatype IngredientRow = IngredientRow(
    recipeId: string,
    sequence: CellRead<int>,
    ingredientId: string,
    ingredientCode: string,
    ingredientName: string,
    targetWeight: CellRead<real>,
    tolerancePercentage: CellRead<real>,
    scaleNumber: CellRead<int>,
    unit: string,
    bowlSize: string)

  /** An empty BowlSize cell stands for a medium bowl. */
  function BowlSizeCell(cell: string): (r: string)
    ensures r != ""
    ensures cell != "" ==> r == cell
  {
    if cell == "" then BowlSizeMedium else cell
  }

  /** Reads a stored row; the first typed cell that fails to read makes the row fail. */
  function ParseIngredientRow(row: IngredientRow): CellRead<RecipeIngredient> {
    if row.sequence.Fails? then Fails(row.sequence.message)
    else if row.targetWeight.Fails? then Fails(row.targetWeight.message)
    else if row.tolerancePercentage.Fails? then Fails(row.tolerancePercentage.message)
    else if row.scaleNumber.Fails? then Fails(row.scaleNumber.message)
    else Read(RecipeIngredient(
      row.recipeId, row.sequence.value, row.ingredientId, row.ingredientCode, row.ingredientName,
      row.targetWeight.value, row.tolerancePercentage.value, row.scaleNumber.value,
      row.unit, BowlSizeCell(row.bowlSize)))
  }

  /** The row `SaveRecipeIngredientAsync` writes for an ingredient line. */
  function RowOf(i: RecipeIngredient): IngredientRow {
    IngredientRow(i.recipeId, Read(i.sequence), i.ingredientId, i.ingredientCode, i.ingredientName,
      Read(i.targetWeight), Read(i.tolerancePercentage), Read(i.scaleNumber), i.unit, i.bowlSize)
  }

  function RowsOf(s: seq<RecipeIngredient>): (r: seq<IngredientRow>)
    ensures |r| == |s| && forall k :: 0 <= k < |s| ==> r[k] == RowOf(s[k])
  {
    seq(|s|, k requires 0 <= k < |s| => RowOf(s[k]))
  }

  /** Storing one more line appends its row. */
  lemma RowsOfAppend(s: seq<RecipeIngredient>, x: RecipeIngredient)
    ensures RowsOf(s + [x]) == RowsOf(s) + [RowOf(x)]
  {
  }

  /** A saved line reads back as itself, except that an empty bowl size reads back as "Medium". */
  lemma SavedRowReadsBack(i: RecipeIngredient)
    ensures ParseIngredientRow(RowOf(i)) == Read(i.(bowlSize := BowlSizeCell(i.bowlSize)))
    ensures i.bowlSize != "" ==> ParseIngredientRow(RowOf(i)) == Read(i)
  {
  }

  /**
   * The lines of recipe `id` in table order: rows of other recipes are
   * passed over, and a row of this recipe whose typed cells fail is skipped.
   */
  function MatchingIngredients(rows: seq<IngredientRow>, id: string): seq<RecipeIngredient> {
    if rows == [] then []
    else
      var last := rows[|rows| - 1];
      var found := if last.recipeId == id then ParseIngredientRow(last) else Fails("");
      MatchingIngredients(rows[..|rows| - 1], id) + (if found.Read? then [found.value] else [])
  }

  /** What `GetRecipeIngredientsAsync(id)` returns: the matching lines, ordered by Sequence. */
  function IngredientsOf(rows: seq<IngredientRow>, id: string): seq<RecipeIngredient> {
    OrderBySequence(MatchingIngredients(rows, id))
  }

  lemma {:induction false} MatchingIngredientsMembers(rows: seq<IngredientRow>, id: string, x: RecipeIngredient)
    ensures x in MatchingIngredients(rows, id) <==>
      exists k :: 0 <= k < |rows| && rows[k].recipeId == id && ParseIngredientRow(rows[k]) == Read(x)
  {
    if rows != [] {
      var init := rows[..|rows| - 1];
      MatchingIngredientsMembers(init, id, x);
      assert forall k :: 0 <= k < |init| ==> init[k] == rows[k];
      if exists k :: 0 <= k < |rows| && rows[k].recipeId == id && ParseIngredientRow(rows[k]) == Read(x) {
        var k :| 0 <= k < |rows| && rows[k].recipeId == id && ParseIngredientRow(rows[k]) == Read(x);
        if k < |init| {
          assert init[k] == rows[k];
        }
      }
    }
  }

  /** The ingredient query returns the matching lines sorted by Sequence, as a permutation of them. */
  lemma IngredientsOfSorted(rows: seq<IngredientRow>, id: string)
    ensures SortedBySequence(IngredientsOf(rows, id))
    ensures multiset(IngredientsOf(rows, id)) == multiset(MatchingIngredients(rows, id))
  {
    OrderBySequenceSorted(MatchingIngredients(rows, id));
  }

  /** A line is returned for recipe `id` exactly when some readable row of that recipe yields it. */
  lemma IngredientsOfMembers(rows: seq<IngredientRow>, id: string, x: RecipeIngredient)
    ensures x in IngredientsOf(rows, id) <==>
      exists k :: 0 <= k < |rows| && rows[k].recipeId == id && ParseIngredientRow(rows[k]) == Read(x)
    ensures x in IngredientsOf(rows, id) ==> x.recipeId == id && x.bowlSize != ""
  {
    var m := MatchingIngredients(rows, id);
    assert x in IngredientsOf(rows, id) <==> x in multiset(IngredientsOf(rows, id));
    assert x in m <==> x in multiset(m);
    MatchingIngredientsMembers(rows, id, x);
  }

  // ---------------------------------------------------------------------
  // Spreadsheet import
  // ---------------------------------------------------------------------

  /** The catalogue entries an import may refer to (Components/Models/Ingredient.cs). */
  datatype Ingredient = Ingredient(
    ingredientId: string,
    ingredientCode: string,
    ingredientName: string,
    unitOfMeasure: string)

  /** The nine cells of a Recipes row. */
  datatype RecipeRow = RecipeRow(
    recipeId: string,
    recipeCode: string,
    recipeName: string,
    description: string,
    status: string,
    createdDate: CellRead<int>,
    lastModifiedDate: CellRead<int>,
    createdBy: string,
    lastModifiedBy: string)

  /** A data row of an imported sheet with its 1-based spreadsheet row number. */
  datatype Numbered<T> = Numbered(rowNumber: int, cells: T)

  /** A worksheet: the cells of its header row (row 1) and its data rows. */
  datatype Sheet<T> = Sheet(header: seq<string>, rows: seq<Numbered<T>>)

  /** An uploaded workbook; a worksheet it does not contain is None. */
  datatype Workbook = Workbook(recipes: Option<Sheet<RecipeRow>>, ingredients: Option<Sheet<IngredientRow>>)

  datatype ImportWarning =
    | RecipeExists(recipeCode: string)
    | RecipeRowError(recipeRow: int, recipeError: string)
    | IngredientNotFound(ingredientCode: string, ingredientRow: int)
    | IngredientRowError(ingredientRow: int, ingredientError: string)

  function WarningText(w: ImportWarning): string {
    match w
    case RecipeExists(code) => "Recipe " + code + " already exists - skipped"
    case RecipeRowError(n, m) => "Error importing recipe at row " + FormatD(n, 0) + ": " + m
    case IngredientNotFound(code, n) =>
      "Ingredient code '" + code + "' not found in system - skipped at row " + FormatD(n, 0)
    case IngredientRowError(n, m) => "Error importing ingredient at row " + FormatD(n, 0) + ": " + m
  }

  datatype ImportResult = ImportResult(
    success: bool,
    recipesImported: int,
    ingredientsImported: int,
    errorMessage: string,
    warnings: seq<ImportWarning>)

  const NoRecipesSheetMessage: string := "Excel file must contain a 'Recipes' worksheet"
  const NoIngredientsSheetMessage: string := "Excel file must contain a 'RecipeIngredients' worksheet"
  const InvalidFormatMessage: string := "Excel file format is invalid. Please use the template format."
  const NothingImportedMessage: string := "No recipes were imported"

  function Failed(message: string): ImportResult {
    ImportResult(false, 0, 0, message, [])
  }

  /** `worksheet.Cell(1, column).GetString()`: a header cell past the end reads as "". */
  function HeaderCell(header: seq<string>, column: nat): string {
    if column < |header| then header[column] else ""
  }

  function ValidRecipeHeaders(header: seq<string>): bool {
    HeaderCell(header, 0) == "RecipeId" && HeaderCell(header, 1) == "RecipeCode"
      && HeaderCell(header, 2) == "RecipeName"
  }

  function ValidIngredientHeaders(header: seq<string>): bool {
    HeaderCell(header, 0) == "RecipeId" && HeaderCell(header, 1) == "Sequence"
      && HeaderCell(header, 2) == "IngredientId"
  }

  /** Header validation looks at the first three cells only, and an empty header fails. */
  lemma HeadersSpec(header: seq<string>)
    ensures ValidRecipeHeaders(header) <==>
      |header| >= 3 && header[..3] == ["RecipeId", "RecipeCode", "RecipeName"]
    ensures ValidIngredientHeaders(header) <==>
      |header| >= 3 && header[..3] == ["RecipeId", "Sequence", "IngredientId"]
  {
    if |header| >= 3 {
      assert header[..3] == [header[0], header[1], header[2]];
    }
  }

  predicate HasRecipeCode(existing: seq<Recipe>, code: string) {
    exists k :: 0 <= k < |existing| && existing[k].recipeCode == code
  }

  function ParseRecipeRow(row: RecipeRow): CellRead<Recipe> {
    if row.createdDate.Fails? then Fails(row.createdDate.message)
    else if row.lastModifiedDate.Fails? then Fails(row.lastModifiedDate.message)
    else Read(Recipe(row.recipeId, row.recipeCode, row.recipeName, row.description, row.status,
      row.createdDate.value, row.lastModifiedDate.value, row.createdBy, row.lastModifiedBy))
  }

  /** The outcome of one row of an import loop. */
  datatype Outcome<T> = Imported(value: T) | Skipped(warning: ImportWarning)

  /** A recipe row: skipped if its code is in the list read before the loop, else imported if readable. */
  function RecipeOutcome(existing: seq<Recipe>, row: Numbered<RecipeRow>): Outcome<Recipe> {
    if HasRecipeCode(existing, row.cells.recipeCode) then Skipped(RecipeExists(row.cells.recipeCode))
    else match ParseRecipeRow(row.cells)
      case Read(r) => Imported(r)
      case Fails(m) => Skipped(RecipeRowError(row.rowNumber, m))
  }

  function CodeMatches(code: string): Ingredient -> bool {
    (i: Ingredient) => EqualsIgnoreCase(i.ingredientCode, code)
  }

  /**
   * An ingredient row: skipped unless its code matches a catalogue entry
   * case-insensitively; the line takes Id, Code, Name and Unit from the first
   * such entry and the rest from the sheet.
   */
  function IngredientOutcome(available: seq<Ingredient>, row: Numbered<IngredientRow>): Outcome<RecipeIngredient> {
    var c := row.cells;
    match FindFirst(available, CodeMatches(c.ingredientCode))
    case None => Skipped(IngredientNotFound(c.ingredientCode, row.rowNumber))
    case Some(j) =>
      var e := available[j];
      if c.sequence.Fails? then Skipped(IngredientRowError(row.rowNumber, c.sequence.message))
      else if c.targetWeight.Fails? then Skipped(IngredientRowError(row.rowNumber, c.targetWeight.message))
      else if c.tolerancePercentage.Fails? then Skipped(IngredientRowError(row.rowNumber, c.tolerancePercentage.message))
      else if c.scaleNumber.Fails? then Skipped(IngredientRowError(row.rowNumber, c.scaleNumber.message))
      else Imported(RecipeIngredient(c.recipeId, c.sequence.value, e.ingredientId, e.ingredientCode,
        e.ingredientName, c.targetWeight.value, c.tolerancePercentage.value, c.scaleNumber.value,
        e.unitOfMeasure, BowlSizeCell(c.bowlSize)))
  }

  function ImportedOf<T>(outcomes: seq<Outcome<T>>): seq<T> {
    if outcomes == [] then []
    else
      var last := outcomes[|outcomes| - 1];
      ImportedOf(outcomes[..|outcomes| - 1]) + (if last.Imported? then [last.value] else [])
  }

  function WarningsOf<T>(outcomes: seq<Outcome<T>>): seq<ImportWarning> {
    if outcomes == [] then []
    else
      var last := outcomes[|outcomes| - 1];
      WarningsOf(outcomes[..|outcomes| - 1]) + (if last.Skipped? then [last.warning] else [])
  }

  function RecipeOutcomes(existing: seq<Recipe>, rows: seq<Numbered<RecipeRow>>): (r: seq<Outcome<Recipe>>)
    ensures |r| == |rows| && forall k :: 0 <= k < |rows| ==> r[k] == RecipeOutcome(existing, rows[k])
  {
    seq(|rows|, k requires 0 <= k < |rows| => RecipeOutcome(existing, rows[k]))
  }

  function IngredientOutcomes(available: seq<Ingredient>, rows: seq<Numbered<IngredientRow>>): (r: seq<Outcome<RecipeIngredient>>)
    ensures |r| == |rows| && forall k :: 0 <= k < |rows| ==> r[k] == IngredientOutcome(available, rows[k])
  {
    seq(|rows|, k requires 0 <= k < |rows| => IngredientOutcome(available, rows[k]))
  }

  /** What `ImportRecipesFromExcelAsync` reports for a workbook, given the recipes stored before it. */
  function ImportOutcome(existing: seq<Recipe>, wb: Workbook, available: seq<Ingredient>): ImportResult {
    if wb.recipes.None? then Failed(NoRecipesSheetMessage)
    else if wb.ingredients.None? then Failed(NoIngredientsSheetMessage)
    else if !ValidRecipeHeaders(wb.recipes.value.header) || !ValidIngredientHeaders(wb.ingredients.value.header) then
      Failed(InvalidFormatMessage)
    else
      var ro := RecipeOutcomes(existing, wb.recipes.value.rows);
      var io := IngredientOutcomes(available, wb.ingredients.value.rows);
      var n := |ImportedOf(ro)|;
      ImportResult(n > 0, n, |ImportedOf(io)|, if n > 0 then "" else NothingImportedMessage,
        WarningsOf(ro) + WarningsOf(io))
  }

  /** The import gets past the sheet and header checks. */
  predicate Accepted(wb: Workbook) {
    wb.recipes.Some? && wb.ingredients.Some?
      && ValidRecipeHeaders(wb.recipes.value.header) && ValidIngredientHeaders(wb.ingredients.value.header)
  }

  lemma {:induction false} EveryRowAccounted<T>(outcomes: seq<Outcome<T>>)
    ensures |ImportedOf(outcomes)| + |WarningsOf(outcomes)| == |outcomes|
  {
    if outcomes != [] {
      EveryRowAccounted(outcomes[..|outcomes| - 1]);
    }
  }

  lemma {:induction false} ImportedOfMembers<T>(outcomes: seq<Outcome<T>>, x: T)
    ensures x in ImportedOf(outcomes) <==> exists k :: 0 <= k < |outcomes| && outcomes[k] == Imported(x)
  {
    if outcomes != [] {
      var init := outcomes[..|outcomes| - 1];
      ImportedOfMembers(init, x);
      assert forall k :: 0 <= k < |init| ==> init[k] == outcomes[k];
      if exists k :: 0 <= k < |outcomes| && outcomes[k] == Imported(x) {
        var k :| 0 <= k < |outcomes| && outcomes[k] == Imported(x);
        if k < |init| {
          assert init[k] == outcomes[k];
        }
      }
    }
  }

  /**
   * The import's verdict: success exactly when some recipe was imported;
   * a missing sheet or a bad header imports nothing and warns of nothing;
   * every row of an accepted workbook is imported or yields one warning.
   */
  lemma ImportOutcomeSpec(existing: seq<Recipe>, wb: Workbook, available: seq<Ingredient>)
    ensures ImportOutcome(existing, wb, available).success <==> ImportOutcome(existing, wb, available).recipesImported > 0
    ensures ImportOutcome(existing, wb, available).success <==> ImportOutcome(existing, wb, available).errorMessage == ""
    ensures !ImportOutcome(existing, wb, available).success && Accepted(wb) ==>
      ImportOutcome(existing, wb, available).errorMessage == NothingImportedMessage
    ensures wb.recipes.None? ==> ImportOutcome(existing, wb, available) == Failed(NoRecipesSheetMessage)
    ensures wb.recipes.Some? && wb.ingredients.None? ==>
      ImportOutcome(existing, wb, available) == Failed(NoIngredientsSheetMessage)
    ensures !Accepted(wb) ==>
      ImportOutcome(existing, wb, available).recipesImported == 0
      && ImportOutcome(existing, wb, available).ingredientsImported == 0
      && ImportOutcome(existing, wb, available).warnings == []
    ensures Accepted(wb) ==>
      ImportOutcome(existing, wb, available).recipesImported + ImportOutcome(existing, wb, available).ingredientsImported
      + |ImportOutcome(existing, wb, available).warnings| == |wb.recipes.value.rows| + |wb.ingredients.value.rows|
  {
    if Accepted(wb) {
      EveryRowAccounted(RecipeOutcomes(existing, wb.recipes.value.rows));
      EveryRowAccounted(IngredientOutcomes(available, wb.ingredients.value.rows));
    }
  }

  /**
   * The imported recipes are exactly the readable rows whose code is not in
   * the list read before the loop; that list is not refreshed, so two new
   * rows with the same code are both imported.
   */
  lemma ImportedRecipesSpec(existing: seq<Recipe>, rows: seq<Numbered<RecipeRow>>, x: Recipe)
    ensures x in ImportedOf(RecipeOutcomes(existing, rows)) <==>
      exists k :: 0 <= k < |rows| && !HasRecipeCode(existing, rows[k].cells.recipeCode)
        && ParseRecipeRow(rows[k].cells) == Read(x)
    ensures x in ImportedOf(RecipeOutcomes(existing, rows)) ==> !HasRecipeCode(existing, x.recipeCode)
  {
    var o := RecipeOutcomes(existing, rows);
    ImportedOfMembers(o, x);
    if x in ImportedOf(o) {
      var k :| 0 <= k < |o| && o[k] == Imported(x);
      assert RecipeOutcome(existing, rows[k]) == Imported(x);
    }
  }

  /** Two new rows with one code: the second is not taken for a duplicate. */
  lemma DuplicateCodesBothImported()
    ensures
      var r := RecipeRow("R1", "C1", "First", "", "Active", Read(1), Read(1), "", "");
      var rows := [Numbered(2, r), Numbered(3, r.(recipeId := "R2"))];
      |ImportedOf(RecipeOutcomes([], rows))| == 2
  {
    var r := RecipeRow("R1", "C1", "First", "", "Active", Read(1), Read(1), "", "");
    var rows := [Numbered(2, r), Numbered(3, r.(recipeId := "R2"))];
    var o := RecipeOutcomes([], rows);
    assert o[0] == Imported(Recipe("R1", "C1", "First", "", "Active", 1, 1, "", ""));
    assert o[1] == Imported(Recipe("R2", "C1", "First", "", "Active", 1, 1, "", ""));
    assert o[..1][..0] == [];
    assert ImportedOf(o[..1]) == [o[0].value];
    assert o[..|o| - 1] == o[..1];
  }

  /**
   * Every imported ingredient line names a catalogue entry whose code matches
   * the sheet's case-insensitively, and takes that entry's Id, Code, Name and
   * Unit; no earlier entry matches.
   */
  lemma ImportedIngredientSpec(available: seq<Ingredient>, rows: seq<Numbered<IngredientRow>>, x: RecipeIngredient)
    requires x in ImportedOf(IngredientOutcomes(available, rows))
    ensures exists k, j :: (0 <= k < |rows| && 0 <= j < |available|
        && EqualsIgnoreCase(available[j].ingredientCode, rows[k].cells.ingredientCode)
        && (forall i :: 0 <= i < j ==> !EqualsIgnoreCase(available[i].ingredientCode, rows[k].cells.ingredientCode))
        && x.ingredientId == available[j].ingredientId && x.ingredientCode == available[j].ingredientCode
        && x.ingredientName == available[j].ingredientName && x.unit == available[j].unitOfMeasure
        && x.recipeId == rows[k].cells.recipeId && x.bowlSize != "")
  {
    var o := IngredientOutcomes(available, rows);
    ImportedOfMembers(o, x);
    var k :| 0 <= k < |o| && o[k] == Imported(x);
    var j := ImportedLineEntry(available, rows[k], x);
  }

  /** The catalogue entry an imported line was taken from: the first whose code matches. */
  lemma ImportedLineEntry(available: seq<Ingredient>, row: Numbered<IngredientRow>, x: RecipeIngredient)
    returns (j: nat)
    requires IngredientOutcome(available, row) == Imported(x)
    ensures j < |available| && EqualsIgnoreCase(available[j].ingredientCode, row.cells.ingredientCode)
    ensures forall i :: 0 <= i < j ==> !EqualsIgnoreCase(available[i].ingredientCode, row.cells.ingredientCode)
    ensures x.ingredientId == available[j].ingredientId && x.ingredientCode == available[j].ingredientCode
    ensures x.ingredientName == available[j].ingredientName && x.unit == available[j].unitOfMeasure
    ensures x.recipeId == row.cells.recipeId && x.bowlSize != ""
  {
    var c := row.cells;
    j := FindFirst(available, CodeMatches(c.ingredientCode)).value;
    assert CodeMatches(c.ingredientCode)(available[j]);
    forall i | 0 <= i < j ensures !EqualsIgnoreCase(available[i].ingredientCode, c.ingredientCode) {
      assert !CodeMatches(c.ingredientCode)(available[i]);
    }
  }

  /** An ingredient row whose code matches no catalogue entry is skipped with a warning naming it. */
  lemma UnknownIngredientSkipped(available: seq<Ingredient>, row: Numbered<IngredientRow>)
    requires forall j :: 0 <= j < |available| ==> !EqualsIgnoreCase(available[j].ingredientCode, row.cells.ingredientCode)
    ensures IngredientOutcome(available, row) == Skipped(IngredientNotFound(row.cells.ingredientCode, row.rowNumber))
  {
    forall j | 0 <= j < |available| ensures !CodeMatches(row.cells.ingredientCode)(available[j]) {
    }
  }

  /** One more row of an import loop adds its outcome to the imported list or to the warnings. */
  lemma OutcomeStep<T>(o: seq<Outcome<T>>, j: nat)
    requires j < |o|
    ensures ImportedOf(o[..j + 1]) == ImportedOf(o[..j]) + (if o[j].Imported? then [o[j].value] else [])
    ensures WarningsOf(o[..j + 1]) == WarningsOf(o[..j]) + (if o[j].Skipped? then [o[j].warning] else [])
  {
    assert o[..j + 1][..j] == o[..j];
  }

  /** The first recipe with Id `id`, if any. */
  function RecipeById(recipes: seq<Recipe>, id: string): (r: Option<Recipe>)
    ensures r.Some? ==> r.value in recipes && r.value.recipeId == id
    ensures r.None? <==> forall k :: 0 <= k < |recipes| ==> recipes[k].recipeId != id
  {
    match FindFirst(recipes, (x: Recipe) => x.recipeId == id)
    case None => None
    case Some(k) => Some(recipes[k])
  }

  // ---------------------------------------------------------------------
  // The service over its two tables
  // ---------------------------------------------------------------------

  class RecipeService {
    var recipes: seq<Recipe>
    var ingredientRows: seq<IngredientRow>

    constructor (recipes: seq<Recipe>, ingredientRows: seq<IngredientRow>)
      ensures this.recipes == recipes && this.ingredientRows == ingredientRows
    {
      this.recipes := recipes;
      this.ingredientRows := ingredientRows;
    }

    /** `GetRecipeByIdAsync`, without the navigation list it fills in. */
    function GetRecipeById(id: string): Option<Recipe>
      reads this
    {
      RecipeById(recipes, id)
    }

    /** `GetRecipeIngredientsAsync`: one pass over the table, then the sort by Sequence. */
    method GetRecipeIngredients(id: string) returns (r: seq<RecipeIngredient>)
      ensures r == IngredientsOf(ingredientRows, id)
    {
      var found: seq<RecipeIngredient> := [];
      var i := 0;
      while i < |ingredientRows|
        invariant 0 <= i <= |ingredientRows|
        invariant found == MatchingIngredients(ingredientRows[..i], id)
      {
        var row := ingredientRows[i];
        assert ingredientRows[..i + 1][..i] == ingredientRows[..i];
        if row.recipeId == id {
          var line := ParseIngredientRow(row);
          if line.Read? {
            found := found + [line.value];
          }
        }
        i := i + 1;
      }
      assert ingredientRows[..i] == ingredientRows;
      r := OrderBySequence(found);
    }

    /**
     * `ImportRecipesFromExcelAsync`: after the sheet and header checks, one
     * loop over the recipe rows and one over the ingredient rows; each
     * imported recipe or line is appended to its table.
     */
    method ImportRecipesFromExcel(wb: Workbook, available: seq<Ingredient>) returns (result: ImportResult)
      modifies this
      ensures result == ImportOutcome(old(recipes), wb, available)
      ensures recipes == old(recipes) +
        (if Accepted(wb) then ImportedOf(RecipeOutcomes(old(recipes), wb.recipes.value.rows)) else [])
      ensures ingredientRows == old(ingredientRows) +
        (if Accepted(wb) then RowsOf(ImportedOf(IngredientOutcomes(available, wb.ingredients.value.rows))) else [])
    {
      if wb.recipes.None? {
        return Failed(NoRecipesSheetMessage);
      }
      if wb.ingredients.None? {
        return Failed(NoIngredientsSheetMessage);
      }
      var recipeSheet := wb.recipes.value;
      var ingredientSheet := wb.ingredients.value;
      if !ValidRecipeHeaders(recipeSheet.header) || !ValidIngredientHeaders(ingredientSheet.header) {
        return Failed(InvalidFormatMessage);
      }
      var existing := recipes;
      var recipesImported, recipeWarnings := ImportRecipeRows(existing, recipeSheet.rows);
      var ingredientsImported, ingredientWarnings := ImportIngredientRows(available, ingredientSheet.rows);
      var success := recipesImported > 0;
      result := ImportResult(success, recipesImported, ingredientsImported,
        if success then "" else NothingImportedMessage, recipeWarnings + ingredientWarnings);
    }

    /** The recipe loop; the duplicate test reads `existing`, the list taken before the loop. */
    method ImportRecipeRows(existing: seq<Recipe>, rows: seq<Numbered<RecipeRow>>)
      returns (imported: int, warnings: seq<ImportWarning>)
      modifies this`recipes
      ensures recipes == old(recipes) + ImportedOf(RecipeOutcomes(existing, rows))
      ensures imported == |ImportedOf(RecipeOutcomes(existing, rows))|
      ensures warnings == WarningsOf(RecipeOutcomes(existing, rows))
    {
      ghost var o := RecipeOutcomes(existing, rows);
      imported, warnings := 0, [];
      var i := 0;
      while i < |rows|
        invariant 0 <= i <= |rows|
        invariant recipes == old(recipes) + ImportedOf(o[..i])
        invariant imported == |ImportedOf(o[..i])|
        invariant warnings == WarningsOf(o[..i])
      {
        OutcomeStep(o, i);
        var row := rows[i];
        if HasRecipeCode(existing, row.cells.recipeCode) {
          warnings := warnings + [RecipeExists(row.cells.recipeCode)];
        } else {
          match ParseRecipeRow(row.cells) {
            case Read(r) =>
              recipes := recipes + [r];
              imported := imported + 1;
            case Fails(m) =>
              warnings := warnings + [RecipeRowError(row.rowNumber, m)];
          }
        }
        i := i + 1;
      }
      assert o[..i] == o;
    }

    /** One row of the ingredient loop: a line taken from the sheet is stored. */
    method ImportIngredientRow(available: seq<Ingredient>, line: Numbered<IngredientRow>)
      returns (outcome: Outcome<RecipeIngredient>)
      modifies this`ingredientRows
      ensures outcome == IngredientOutcome(available, line)
      ensures ingredientRows == old(ingredientRows) + (if outcome.Imported? then [RowOf(outcome.value)] else [])
    {
      outcome := IngredientOutcome(available, line);
      if outcome.Imported? {
        ingredientRows := ingredientRows + [RowOf(outcome.value)];
      }
    }

    /** The ingredient loop; each readable row whose code is in the catalogue is saved. */
    method ImportIngredientRows(available: seq<Ingredient>, lines: seq<Numbered<IngredientRow>>)
      returns (imported: int, warnings: seq<ImportWarning>)
      modifies this`ingredientRows
      ensures ingredientRows == old(ingredientRows) + RowsOf(ImportedOf(IngredientOutcomes(available, lines)))
      ensures imported == |ImportedOf(IngredientOutcomes(available, lines))|
      ensures warnings == WarningsOf(IngredientOutcomes(available, lines))
    {
      ghost var o := IngredientOutcomes(available, lines);
      imported, warnings := 0, [];
      var j := 0;
      while j < |lines|
        invariant 0 <= j <= |lines|
        invariant ingredientRows == old(ingredientRows) + RowsOf(ImportedOf(o[..j]))
        invariant imported == |ImportedOf(o[..j])|
        invariant warnings == WarningsOf(o[..j])
      {
        var outcome := ImportIngredientRow(available, lines[j]);
        OutcomeStep(o, j);
        if outcome.Imported? {
          RowsOfAppend(ImportedOf(o[..j]), outcome.value);
          imported := imported + 1;
        } else {
          warnings := warnings + [outcome.warning];
        }
        j := j + 1;
      }
      assert o[..j] == o;
    }
  }
}
