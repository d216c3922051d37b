/**
 * Recipes and their ingredient lines (Components/Models/Recipe.cs): the
 * tolerance band an ingredient line derives from its target weight and
 * tolerance percentage, the defaults of a new line, and LINQ's stable
 * `OrderBy(i => i.Sequence)` on ingredient lists.
 */
module Recipes {

  const BowlSizeSmall: string := "Small"
  const BowlSizeMedium: string := "Medium"
  const BowlSizeLarge: string := "Large"

  const RecipeStatusActive: string := "Active"
  const RecipeStatusArchived: string := "Archived"
  const RecipeStatusDraft: string := "Draft"

  /**
   * A recipe; times are ticks. The `Ingredients` navigation list is not
   * part of the model (ingredient lines are looked up by RecipeId).
   */
  datatype Recipe = Recipe(
    recipeId: string,
    recipeCode: string,
    recipeName: string,
    description: string,
    status: string,
    createdDate: int,
    lastModifiedDate: int,
    createdBy: string,
    lastModifiedBy: string)

  /** One ingredient line of a recipe; weights are exact decimals. */
  datatype RecipeIngredient = RecipeIngredient(
    recipeId: string,
    sequence: int,
    ingredientId: string,
    ingredientCode: string,
    ingredientName: string,
    targetWeight: real,
    tolerancePercentage: real,
    scaleNumber: int,
    unit: string,
    bowlSize: string)

  /** `new Recipe()`: empty strings, default times, status Active. */
  function NewRecipe(): (r: Recipe)
    ensures r.status == RecipeStatusActive
  {
    Recipe("", "", "", "", RecipeStatusActive, 0, 0, "", "")
  }

  /** `new RecipeIngredient()`: scale 1, unit kg, a medium bowl, zero weights. */
  function NewRecipeIngredient(): (r: RecipeIngredient)
    ensures r.scaleNumber == 1 && r.unit == "kg" && r.bowlSize == BowlSizeMedium
    ensures MinWeight(r) == MaxWeight(r) == r.targetWeight == 0.0
  {
    RecipeIngredient("", 0, "", "", "", 0.0, 0.0, 1, "kg", BowlSizeMedium)
  }

  /** The tolerance in kilograms: TolerancePercentage percent of the target. */
  function ToleranceKg(i: RecipeIngredient): real {
    (i.targetWeight * i.tolerancePercentage) / 100.0
  }

  function MinWeight(i: RecipeIngredient): real {
    i.targetWeight - ToleranceKg(i)
  }

  function MaxWeight(i: RecipeIngredient): real {
    i.targetWeight + ToleranceKg(i)
  }

  lemma BandContainsTarget(i: RecipeIngredient)
    requires i.targetWeight >= 0.0 && i.tolerancePercentage >= 0.0
    ensures MinWeight(i) <= i.targetWeight <= MaxWeight(i)
  {
    assert i.targetWeight * i.tolerancePercentage >= 0.0;
  }

  lemma BandIsSymmetric(i: RecipeIngredient)
    ensures MaxWeight(i) - MinWeight(i) == 2.0 * i.targetWeight * i.tolerancePercentage / 100.0
    ensures i.targetWeight - MinWeight(i) == MaxWeight(i) - i.targetWeight
  {
  }

  // ---------------------------------------------------------------------
  // `OrderBy(i => i.Sequence)`: a stable sort on the Sequence key
  // ---------------------------------------------------------------------

  ghost predicate SortedBySequence(s: seq<RecipeIngredient>) {
    forall i, j :: 0 <= i < j < |s| ==> s[i].sequence <= s[j].sequence
  }

  /** The lines of `s` whose Sequence is `k`, in their order in `s`. */
  function WithSequence(s: seq<RecipeIngredient>, k: int): seq<RecipeIngredient> {
    if s == [] then []
    else (if s[0].sequence == k then [s[0]] else []) + WithSequence(s[1..], k)
  }

  /** Inserts `x` before the first line whose key is not smaller than its own. */
  function InsertBySequence(x: RecipeIngredient, s: seq<RecipeIngredient>): (r: seq<RecipeIngredient>)
    ensures multiset(r) == multiset(s) + multiset{x}
  {
    if s == [] then [x]
    else if x.sequence <= s[0].sequence then [x] + s
    else
      assert s == [s[0]] + s[1..];
      [s[0]] + InsertBySequence(x, s[1..])
  }

  function OrderBySequence(s: seq<RecipeIngredient>): (r: seq<RecipeIngredient>)
    ensures multiset(r) == multiset(s)
  {
    if s == [] then []
    else
      assert s == [s[0]] + s[1..];
      InsertBySequence(s[0], OrderBySequence(s[1..]))
  }

  /** Every line of `s` has a Sequence of at least `b`. */
  ghost predicate AtLeast(s: seq<RecipeIngredient>, b: int) {
    forall i :: 0 <= i < |s| ==> b <= s[i].sequence
  }

  /** A line no larger than every line of a sorted list can go in front of it. */
  lemma SortedCons(a: RecipeIngredient, t: seq<RecipeIngredient>)
    requires SortedBySequence(t) && AtLeast(t, a.sequence)
    ensures SortedBySequence([a] + t)
  {
    var u := [a] + t;
    forall i, j | 0 <= i < j < |u| ensures u[i].sequence <= u[j].sequence {
      assert u[j] == t[j - 1];
      if i > 0 {
        assert u[i] == t[i - 1];
      }
    }
  }

  /** A sorted list's tail is sorted and bounded below by its head. */
  lemma SortedTail(s: seq<RecipeIngredient>)
    requires s != [] && SortedBySequence(s)
    ensures SortedBySequence(s[1..]) && AtLeast(s, s[0].sequence) && AtLeast(s[1..], s[0].sequence)
  {
    forall i, j | 0 <= i < j < |s[1..]| ensures s[1..][i].sequence <= s[1..][j].sequence {
      assert s[1..][i] == s[i + 1] && s[1..][j] == s[j + 1];
    }
    forall i | 0 <= i < |s[1..]| ensures s[0].sequence <= s[1..][i].sequence {
      assert s[1..][i] == s[i + 1];
    }
  }

  /** Inserting a line that respects a lower bound keeps the bound. */
  lemma {:induction false} InsertBySequenceAtLeast(x: RecipeIngredient, s: seq<RecipeIngredient>, b: int)
    requires AtLeast(s, b) && b <= x.sequence
    ensures AtLeast(InsertBySequence(x, s), b)
  {
    if s != [] {
      assert AtLeast(s[1..], b) by {
        forall i | 0 <= i < |s[1..]| ensures b <= s[1..][i].sequence {
          assert s[1..][i] == s[i + 1];
        }
      }
      if x.sequence > s[0].sequence {
        InsertBySequenceAtLeast(x, s[1..], b);
        var t := InsertBySequence(x, s[1..]);
        forall i | 0 <= i < |[s[0]] + t| ensures b <= ([s[0]] + t)[i].sequence {
          if i > 0 {
            assert ([s[0]] + t)[i] == t[i - 1];
          }
        }
      } else {
        forall i | 0 <= i < |[x] + s| ensures b <= ([x] + s)[i].sequence {
          if i > 0 {
            assert ([x] + s)[i] == s[i - 1];
          }
        }
      }
    }
  }

  lemma {:induction false} InsertBySequenceSorted(x: RecipeIngredient, s: seq<RecipeIngredient>)
    requires SortedBySequence(s)
    ensures SortedBySequence(InsertBySequence(x, s))
  {
    if s != [] {
      SortedTail(s);
      if x.sequence > s[0].sequence {
        InsertBySequenceSorted(x, s[1..]);
        InsertBySequenceAtLeast(x, s[1..], s[0].sequence);
        SortedCons(s[0], InsertBySequence(x, s[1..]));
      } else {
        assert AtLeast(s, x.sequence) by {
          forall i | 0 <= i < |s| ensures x.sequence <= s[i].sequence {
            assert s[0].sequence <= s[i].sequence;
          }
        }
        SortedCons(x, s);
      }
    }
  }

  lemma {:induction false} OrderBySequenceSorted(s: seq<RecipeIngredient>)
    ensures SortedBySequence(OrderBySequence(s))
  {
    if s != [] {
      OrderBySequenceSorted(s[1..]);
      InsertBySequenceSorted(s[0], OrderBySequence(s[1..]));
    }
  }

  lemma {:induction false} WithSequenceAppend(a: seq<RecipeIngredient>, b: seq<RecipeIngredient>, k: int)
    ensures WithSequence(a + b, k) == WithSequence(a, k) + WithSequence(b, k)
  {
    if a != [] {
      assert (a + b)[1..] == a[1..] + b;
      WithSequenceAppend(a[1..], b, k);
    } else {
      assert a + b == b;
    }
  }

  /** Selecting by key on a list with a given head. */
  lemma WithSequenceCons(a: RecipeIngredient, u: seq<RecipeIngredient>, k: int)
    ensures WithSequence([a] + u, k) == (if a.sequence == k then [a] else []) + WithSequence(u, k)
  {
    assert ([a] + u)[1..] == u;
  }

  lemma {:induction false} InsertBySequenceStable(x: RecipeIngredient, s: seq<RecipeIngredient>, k: int)
    ensures WithSequence(InsertBySequence(x, s), k) == WithSequence([x] + s, k)
  {
    if s != [] && x.sequence > s[0].sequence {
      var t := s[1..];
      var u := InsertBySequence(x, t);
      assert InsertBySequence(x, s) == [s[0]] + u;
      assert s == [s[0]] + t;
      InsertBySequenceStable(x, t, k);
      WithSequenceCons(s[0], u, k);
      WithSequenceCons(x, t, k);
      WithSequenceCons(x, s, k);
      WithSequenceCons(s[0], t, k);
      var h0 := if s[0].sequence == k then [s[0]] else [];
      var hx := if x.sequence == k then [x] else [];
      assert h0 == [] || hx == [];
      assert h0 + hx == hx + h0;
      assert h0 + (hx + WithSequence(t, k)) == hx + (h0 + WithSequence(t, k));
    }
  }

  /** Lines with equal Sequence keep their relative order: the sort is stable. */
  lemma {:induction false} OrderBySequenceStable(s: seq<RecipeIngredient>, k: int)
    ensures WithSequence(OrderBySequence(s), k) == WithSequence(s, k)
  {
    if s != [] {
      OrderBySequenceStable(s[1..], k);
      InsertBySequenceStable(s[0], OrderBySequence(s[1..]), k);
      WithSequenceCons(s[0], OrderBySequence(s[1..]), k);
      WithSequenceCons(s[0], s[1..], k);
      assert s == [s[0]] + s[1..];
    }
  }

  /** Sorting a list that is already in Sequence order changes nothing. */
  lemma {:induction false} OrderBySequenceOfSorted(s: seq<RecipeIngredient>)
    requires SortedBySequence(s)
    ensures OrderBySequence(s) == s
  {
    if s != [] {
      assert SortedBySequence(s[1..]);
      OrderBySequenceOfSorted(s[1..]);
      var t := s[1..];
      if t != [] {
        assert s[0].sequence <= t[0].sequence;
      }
    }
  }
}
