/**
 * The recipe dialog's state: the list of ingredients it tracks, the
 * breakfast/lunch/dinner checkboxes and the recipe being edited. Text fields
 * and the slider are read by the caller and handed in as parameters.
 */
module RecipeUi {
  import opened Wrappers
  import opened RecipeTags
  import opened RecipeDto
  import opened IngredientInputs

  // ---------------------------------------------------------------------------
  // Checkboxes and tags

  datatype Checkboxes = Checkboxes(breakfast: bool, lunch: bool, dinner: bool)

  const Unchecked := Checkboxes(false, false, false)

  /** The checkbox that stands for a tag. */
  function IsChecked(cb: Checkboxes, t: RecipeTag): bool
  {
    match t
    case B => cb.breakfast
    case L => cb.lunch
    case D => cb.dinner
  }

  /** The tags whose checkbox is selected. */
  function CheckedTags(cb: Checkboxes): (tags: set<RecipeTag>)
    ensures forall t :: t in tags <==> IsChecked(cb, t)
  {
    set t | t in AllTags && IsChecked(cb, t)
  }

  /** initializeView's tag step: select the checkbox of every tag the recipe has, leave the others as they are. */
  function SelectTags(cb: Checkboxes, tags: set<RecipeTag>): (r: Checkboxes)
    ensures forall t :: IsChecked(r, t) <==> IsChecked(cb, t) || t in tags
  {
    Checkboxes(cb.breakfast || B in tags, cb.lunch || L in tags, cb.dinner || D in tags)
  }

  /** Loading a recipe's tags into clear checkboxes and saving them gives the same tags back, and vice versa. */
  lemma CheckboxRoundTrip(tags: set<RecipeTag>, cb: Checkboxes)
    ensures CheckedTags(SelectTags(Unchecked, tags)) == tags
    ensures SelectTags(Unchecked, CheckedTags(cb)) == cb
  {
    assert forall t :: t in CheckedTags(SelectTags(Unchecked, tags)) <==> t in tags;
  }

  // ---------------------------------------------------------------------------
  // ArrayList.remove(Object)

  function FirstIndex<T(==)>(s: seq<T>, x: T): (k: nat)
    requires x in s
    ensures k < |s| && s[k] == x && x !in s[..k]
  {
    if s[0] == x then 0 else 1 + FirstIndex(s[1..], x)
  }

  /** ArrayList.remove(Object): removes the first element equal to x. */
  function RemoveFirst<T(==)>(s: seq<T>, x: T): seq<T>
  {
    if s == [] then []
    else if s[0] == x then s[1..]
    else [s[0]] + RemoveFirst(s[1..], x)
  }

  /**
   * A list without x is returned as it is; otherwise exactly the first
   * occurrence of x is cut out and everything else keeps its order.
   */
  lemma {:induction false} RemoveFirstCutsFirstOccurrence<T>(s: seq<T>, x: T)
    ensures x !in s ==> RemoveFirst(s, x) == s
    ensures x in s ==> RemoveFirst(s, x) == s[..FirstIndex(s, x)] + s[FirstIndex(s, x) + 1..]
  {
    if s != [] && s[0] != x {
      RemoveFirstCutsFirstOccurrence(s[1..], x);
      if x in s {
        var k := FirstIndex(s[1..], x);
        assert FirstIndex(s, x) == k + 1;
        assert s[..k + 1] == [s[0]] + s[1..][..k];
        assert s[k + 2..] == s[1..][k + 1..];
      } else {
        assert s == [s[0]] + s[1..];
      }
    }
  }

  /**
   * Removing takes away exactly one occurrence of x, if there is one, and
   * leaves the multiplicity of every other element as it was.
   */
  lemma {:induction false} RemoveFirstTakesOneOccurrence<T>(s: seq<T>, x: T)
    ensures multiset(RemoveFirst(s, x))[x] == if multiset(s)[x] == 0 then 0 else multiset(s)[x] - 1
    ensures forall y :: y != x ==> multiset(RemoveFirst(s, x))[y] == multiset(s)[y]
  {
    if s == [] {
    } else if s[0] == x {
      assert s == [x] + s[1..];
    } else {
      RemoveFirstTakesOneOccurrence(s[1..], x);
      assert s == [s[0]] + s[1..];
      assert RemoveFirst(s, x) == [s[0]] + RemoveFirst(s[1..], x);
    }
  }

  /** The list shrinks by one exactly when x was in it. */
  lemma {:induction false} RemoveFirstShrinksByOne<T>(s: seq<T>, x: T)
    ensures |RemoveFirst(s, x)| == if x in s then |s| - 1 else |s|
  {
    if s != [] && s[0] != x {
      RemoveFirstShrinksByOne(s[1..], x);
      assert x in s <==> x in s[1..];
    }
  }

  // ---------------------------------------------------------------------------
  // The controller

  class RecipeController {
    /** The tracking list `ingredients`. */
    var ingredients: seq<Ingredient>
    var checkboxes: Checkboxes
    var isInEditMode: bool
    /** The recipe being created or edited; null until initializeView runs. */
    var r: Recipe?

    /** The dialog as loaded: no ingredient tracked, no checkbox selected, no recipe yet. */
    constructor ()
      ensures ingredients == [] && checkboxes == Unchecked && !isInEditMode && r == null
    {
      ingredients := [];
      checkboxes := Unchecked;
      isInEditMode := false;
      r := null;
    }

    /** addIngredient: appends at the end of the tracking list. */
    method AddIngredient(recipeIngredient: Ingredient)
      modifies this`ingredients
      ensures ingredients == old(ingredients) + [recipeIngredient]
    {
      ingredients := ingredients + [recipeIngredient];
    }

    /** deleteIngredient: removes the first equal entry; the others keep their order. */
    method DeleteIngredient(ingredient: Ingredient)
      modifies this`ingredients
      ensures ingredient !in old(ingredients) ==> ingredients == old(ingredients)
      ensures ingredient in old(ingredients) ==>
                ingredients == old(ingredients)[..FirstIndex(old(ingredients), ingredient)] +
                               old(ingredients)[FirstIndex(old(ingredients), ingredient) + 1..]
    {
      RemoveFirstCutsFirstOccurrence(ingredients, ingredient);
      ingredients := RemoveFirst(ingredients, ingredient);
    }

    /** isCommonIngredientAlreadyPresent: a linear search of the tracking list by id. */
    method IsCommonIngredientAlreadyPresent(newRi: Ingredient) returns (found: bool)
      requires IdsPresent(ingredients, newRi)
      ensures found <==> exists i :: 0 <= i < |ingredients| && ingredients[i].id == newRi.id
    {
      var i := 0;
      while i < |ingredients|
        invariant 0 <= i <= |ingredients|
        invariant forall j :: 0 <= j < i ==> ingredients[j].id != newRi.id
      {
        if ingredients[i].id.value == newRi.id.value {
          return true;
        }
        i := i + 1;
      }
      return false;
    }

    /** validateSearchIngredientInputs, against the tracking list. */
    method ValidateSearchIngredientInputs(recipeIngredient: Option<Ingredient>, amountText: Option<string>, amount: Option<real>)
      returns (ok: bool)
      requires ReachesDuplicateCheck(recipeIngredient, amountText, amount) ==> IdsPresent(ingredients, recipeIngredient.value)
      ensures ok <==> SearchIngredientRejection(recipeIngredient, amountText, amount, ingredients).None?
    {
      if recipeIngredient.None? || amountText.None? || |Trim(amountText.value)| == 0 || amount.None? || amount.value <= 0.0 {
        return false;
      }
      var present := IsCommonIngredientAlreadyPresent(recipeIngredient.value);
      SearchVerdictAtDuplicateCheck(recipeIngredient, amountText, amount, ingredients);
      return !present;
    }

    /**
     * onAddButtonClicked: in search mode the selected ingredient, given the
     * parsed amount, is appended once its checks pass; in custom mode the
     * ingredient built from the form is appended once its checks pass.
     * Otherwise the tracking list stays as it was.
     */
    method OnAddButtonClicked(customMode: bool, selection: Option<Ingredient>, amountText: Option<string>, amount: Option<real>,
                              custom: CustomInputs)
      requires !customMode && ReachesDuplicateCheck(selection, amountText, amount) ==> IdsPresent(ingredients, selection.value)
      modifies this`ingredients
      ensures !customMode ==>
                ingredients == if SearchIngredientRejection(selection, amountText, amount, old(ingredients)).None?
                               then old(ingredients) + [selection.value.(amount := amount)]
                               else old(ingredients)
      ensures customMode ==>
                ingredients == if ValidateCustomIngredientInputs(custom)
                               then old(ingredients) + [CreateCustomIngredient(custom)]
                               else old(ingredients)
    {
      if !customMode {
        var ok := ValidateSearchIngredientInputs(selection, amountText, amount);
        if ok {
          AddIngredient(selection.value.(amount := amount));
        }
      } else {
        if ValidateCustomIngredientInputs(custom) {
          AddIngredient(CreateCustomIngredient(custom));
        }
      }
    }

    /**
     * initializeView: starts a fresh tracking list. Given a recipe, switches to
     * edit mode, tracks the recipe's ingredients in order and selects the
     * checkbox of each of its tags; without one, starts a recipe whose fields
     * are all null.
     */
    method InitializeView(recipe: Recipe?, recipeIngredients: seq<Ingredient>)
      requires recipe != null ==> recipe.duration.Some? && recipe.description.Some? && recipe.tags.Some?
      modifies this
      ensures isInEditMode == (recipe != null)
      ensures recipe != null ==> r == recipe && ingredients == recipeIngredients &&
                                 checkboxes == SelectTags(old(checkboxes), recipe.tags.value)
      ensures recipe == null ==> fresh(r) && r.Fields() == RecipeFields(None, None, None, None, None, None) &&
                                 ingredients == [] && checkboxes == old(checkboxes)
    {
      ingredients := [];
      if recipe != null {
        isInEditMode := true;
        var k := 0;
        while k < |recipeIngredients|
          invariant 0 <= k <= |recipeIngredients|
          invariant ingredients == recipeIngredients[..k]
          modifies this`ingredients
        {
          AddIngredient(recipeIngredients[k]);
          k := k + 1;
        }
        var tags := recipe.tags.value;
        if B in tags {
          checkboxes := checkboxes.(breakfast := true);
        }
        if L in tags {
          checkboxes := checkboxes.(lunch := true);
        }
        if D in tags {
          checkboxes := checkboxes.(dinner := true);
        }
        r := recipe;
      } else {
        isInEditMode := false;
        r := new Recipe(None, None, None, None, None, None);
      }
    }

    /**
     * onSaveButtonClicked, up to the service call: writes the name, the
     * slider's duration, the directions and the tags of the selected
     * checkboxes into the recipe.
     */
    method OnSaveButtonClicked(nameText: Option<string>, sliderValue: real, directionsText: Option<string>)
      requires r != null
      modifies r
      ensures r.Fields() == old(r.Fields()).(name := nameText, duration := Some(sliderValue),
                                             description := directionsText, tags := Some(CheckedTags(checkboxes)))
    {
      r.SetName(nameText);
      r.SetDuration(Some(sliderValue));
      r.SetDescription(directionsText);
      var tags: set<RecipeTag> := {};
      if checkboxes.breakfast {
        tags := tags + {B};
      }
      if checkboxes.lunch {
        tags := tags + {L};
      }
      if checkboxes.dinner {
        tags := tags + {D};
      }
      assert tags == CheckedTags(checkboxes);
      r.SetTags(Some(tags));
    }
  }
}
