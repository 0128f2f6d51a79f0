# Recipe dialog core of the diet-planning application

This project models two pieces of the desktop diet planner in Dafny and proves properties of them.

- **The recipe record** (`Recipe.java`) is a mutable class with six nullable fields: id, name, duration, description, tags and deleted. Each field has a getter and a setter. The tag set (`RecipeTag` constants `B`, `L`, `D` for breakfast, lunch and dinner) has a compact string form with one letter per tag, emitted in declaration order. `getTagsAsString` produces that string and `setTagsAsString` parses it. The parser splits the string into single characters, looks each one up with `RecipeTag.valueOf`, and collects the tags into a set.
- **The recipe dialog** (`RecipeController.java`) does four things:
  - It checks a custom ingredient with a fail-fast chain of range checks that shows one alert.
  - It checks an ingredient picked from the search box with a second chain that ends in a duplicate-id search.
  - It keeps a tracking list of the recipe's ingredients. The add button appends an entry only after that entry's checks pass, while `initializeView` loads the edited recipe's own ingredients without checking them.
  - It maps the recipe's tags to the breakfast, lunch and dinner checkboxes when the dialog opens, and back again on save.

Modules:
- `Wrappers`: `Option` (a Java reference that may be null) and `Result` (a value or the exception that replaced it).
- `RecipeTags`: the enum, `Encode` (`getTagsAsString`), `Decode` (`setTagsAsString`) and their properties.
- `RecipeDto`: the class `Recipe`.
- `IngredientInputs`: the two validation chains as pure functions over already-parsed form values, plus Java's `String.trim`.
- `RecipeUi`: the class `RecipeController`, which holds the tracking list, the checkbox state and the edited recipe.

Modelling decisions:
- Java `null` is `None`. The `Double` fields are `real`, so no floating-point effects are modelled.
- Numeric text fields reach the validators already parsed, as `Option<real>`.
- An exception is a `Failure` value or an `Option` "thrown" result. This applies to `valueOf` rejecting a piece and to a null tag string or null tag set.
- The enum `RecipeTag` is not part of this model's sources. Its constants are taken to be declared in the order `B`, `L`, `D`, with the default `toString` (the constant's name). This is an assumption.

Behaviours of the code that the model keeps, including surprising ones:
- The empty tag set encodes to `""`, but decoding `""` fails. `"".split("")` yields one empty piece, and `valueOf("")` rejects it. So the round trip holds only for non-empty sets.
- Decoding rejects the empty string as well as any character that is not a tag letter.
- Both `Recipe` constructors accept a description and never store it. The model reproduces this: after construction the description is null until `setDescription` is called.
- Two alert texts do not match the checks they belong to:
  - The nutrient-sum check rejects only a sum above 100, although its message says "lower than 100".
  - The kcal check accepts 0, although its message says "positive".

## Model

| member | source | states |
|---|---|---|
| RecipeTags.InOrder | src/main/java/at/ac/tuwien/sepm/assignment/groupphase/application/dto/Recipe.java:96-97 | (body) the members of the set, listed in the order of the given sequence, which is how an `EnumSet` streams its elements |
| RecipeTags.InOrderSpec | src/main/java/at/ac/tuwien/sepm/assignment/groupphase/application/dto/Recipe.java:96-97 | the stream of `tags` in declaration order lists each member exactly once, lists nothing else, and has strictly increasing ordinals |
| RecipeTags.Names | src/main/java/at/ac/tuwien/sepm/assignment/groupphase/application/dto/Recipe.java:98 | (body) `map(RecipeTag::toString)`: one name per tag, position by position; the ensures state that the stream keeps its length |
| RecipeTags.Join | src/main/java/at/ac/tuwien/sepm/assignment/groupphase/application/dto/Recipe.java:99 | (body) `Collectors.joining()`: the pieces concatenated in order with no separator |
| RecipeTags.Encode | src/main/java/at/ac/tuwien/sepm/assignment/groupphase/application/dto/Recipe.java:95-100 | (body) `getTagsAsString`'s computation: the members' names in declaration order, joined; its properties are EncodeSpec's |
| RecipeTags.SplitChars | src/main/java/at/ac/tuwien/sepm/assignment/groupphase/application/dto/Recipe.java:104 | (body) `String.split("")`: the empty string gives the single piece "", any other string one one-character piece per character |
| RecipeTags.ValueOf | src/main/java/at/ac/tuwien/sepm/assignment/groupphase/application/dto/Recipe.java:105 | `valueOf` returns the tag whose name is exactly the string, and nothing when no tag has that name |
| RecipeTags.CollectTags | src/main/java/at/ac/tuwien/sepm/assignment/groupphase/application/dto/Recipe.java:103-106 | the stream succeeds iff every piece names a tag; on success the set holds exactly the tags some piece names; on failure it reports the first rejected piece, and all earlier pieces were accepted |
| RecipeTags.Decode | src/main/java/at/ac/tuwien/sepm/assignment/groupphase/application/dto/Recipe.java:102-107 | (body) `setTagsAsString`'s computation: split, look each piece up with `valueOf`, collect; its properties are DecodeSpec's and DecodeRejects' |
| RecipeTags.JoinNamesIsLetters | src/main/java/at/ac/tuwien/sepm/assignment/groupphase/application/dto/Recipe.java:96-99 | joining the tag names with no separator lists one letter per tag, in stream order |
| RecipeTags.EncodeSpec | src/main/java/at/ac/tuwien/sepm/assignment/groupphase/application/dto/Recipe.java:95-100 | the encoding has exactly one letter per tag in the set; every letter names a member; every member's letter occurs; letters strictly follow the declaration order B, L, D |
| RecipeTags.DecodeSpec | src/main/java/at/ac/tuwien/sepm/assignment/groupphase/application/dto/Recipe.java:102-107 | decoding succeeds iff the string is non-empty and made only of tag letters, in any order and with any repetition; the result is the set of tags whose letters occur |
| RecipeTags.DecodeRejects | src/main/java/at/ac/tuwien/sepm/assignment/groupphase/application/dto/Recipe.java:104-105 | "" is rejected with the empty piece; a string with any non-tag character is rejected, and the reported piece is not a tag letter |
| RecipeTags.EmptySetDoesNotRoundTrip | src/main/java/at/ac/tuwien/sepm/assignment/groupphase/application/dto/Recipe.java:95-107 | the empty set encodes to "" and "" does not decode |
| RecipeTags.RoundTrip | src/main/java/at/ac/tuwien/sepm/assignment/groupphase/application/dto/Recipe.java:95-107 | every non-empty tag set decodes from its own encoding |
| RecipeTags.DecodeIgnoresOrderAndRepetition | src/main/java/at/ac/tuwien/sepm/assignment/groupphase/application/dto/Recipe.java:102-107 | two strings with the same letters decode alike once one of them decodes: duplicates collapse and order is irrelevant |
| RecipeTags.ReencodeIsCanonical | src/main/java/at/ac/tuwien/sepm/assignment/groupphase/application/dto/Recipe.java:95-107 | decode then encode yields a canonical string that decodes to the same set and re-encodes to itself |
| RecipeDto.Recipe.constructor | src/main/java/at/ac/tuwien/sepm/assignment/groupphase/application/dto/Recipe.java:23-29 | stores id, name, duration, tags and deleted; the description argument is dropped and the description is null |
| RecipeDto.Recipe.FromTagsString | src/main/java/at/ac/tuwien/sepm/assignment/groupphase/application/dto/Recipe.java:39-45 | a null tag string throws, an undecodable one throws naming the bad piece; otherwise a new recipe with the decoded tags and a null description |
| RecipeDto.Recipe.GetId | src/main/java/at/ac/tuwien/sepm/assignment/groupphase/application/dto/Recipe.java:47-49 | (body) the id field, null included |
| RecipeDto.Recipe.GetName | src/main/java/at/ac/tuwien/sepm/assignment/groupphase/application/dto/Recipe.java:55-57 | (body) the name field, null included |
| RecipeDto.Recipe.GetDuration | src/main/java/at/ac/tuwien/sepm/assignment/groupphase/application/dto/Recipe.java:63-65 | (body) the duration field, null included |
| RecipeDto.Recipe.GetDescription | src/main/java/at/ac/tuwien/sepm/assignment/groupphase/application/dto/Recipe.java:71-73 | (body) the description field, null included |
| RecipeDto.Recipe.GetTags | src/main/java/at/ac/tuwien/sepm/assignment/groupphase/application/dto/Recipe.java:79-81 | (body) the tag set field, null included |
| RecipeDto.Recipe.GetDeleted | src/main/java/at/ac/tuwien/sepm/assignment/groupphase/application/dto/Recipe.java:87-89 | (body) the deleted flag, null included |
| RecipeDto.Recipe.SetId | src/main/java/at/ac/tuwien/sepm/assignment/groupphase/application/dto/Recipe.java:51-53 | changes the id and no other field |
| RecipeDto.Recipe.SetName | src/main/java/at/ac/tuwien/sepm/assignment/groupphase/application/dto/Recipe.java:59-61 | changes the name and no other field |
| RecipeDto.Recipe.SetDuration | src/main/java/at/ac/tuwien/sepm/assignment/groupphase/application/dto/Recipe.java:67-69 | changes the duration and no other field |
| RecipeDto.Recipe.SetDescription | src/main/java/at/ac/tuwien/sepm/assignment/groupphase/application/dto/Recipe.java:75-77 | changes the description and no other field |
| RecipeDto.Recipe.SetTags | src/main/java/at/ac/tuwien/sepm/assignment/groupphase/application/dto/Recipe.java:83-85 | changes the tags and no other field |
| RecipeDto.Recipe.SetDeleted | src/main/java/at/ac/tuwien/sepm/assignment/groupphase/application/dto/Recipe.java:91-93 | changes the deleted flag and no other field |
| RecipeDto.Recipe.TagsAsString | src/main/java/at/ac/tuwien/sepm/assignment/groupphase/application/dto/Recipe.java:95-100 | null tags throw; otherwise the result is `Encode` of the tags (declaration order, see EncodeSpec), one letter per tag, and the string decodes back to the tags unless the set is empty, when it fails on "" |
| RecipeDto.Recipe.SetTagsAsString | src/main/java/at/ac/tuwien/sepm/assignment/groupphase/application/dto/Recipe.java:102-107 | on a null or undecodable string it throws and leaves every field unchanged; otherwise it replaces only the tags with the decoded set |
| IngredientInputs.TrimStart | src/main/java/at/ac/tuwien/sepm/assignment/groupphase/application/ui/RecipeController.java:384-391 | keeps a suffix, drops only characters at or below ' ', and the kept part starts with a visible character |
| IngredientInputs.TrimEnd | src/main/java/at/ac/tuwien/sepm/assignment/groupphase/application/ui/RecipeController.java:384-391 | keeps a prefix, drops only characters at or below ' ', and the kept part ends with a visible character |
| IngredientInputs.Trim | src/main/java/at/ac/tuwien/sepm/assignment/groupphase/application/ui/RecipeController.java:333 | `String.trim`: never longer than its input, and a non-empty result starts and ends with a character above ' ' |
| IngredientInputs.TrimEmptyIffBlank | src/main/java/at/ac/tuwien/sepm/assignment/groupphase/application/ui/RecipeController.java:384-391 | `trim().length()` is 0 exactly when every character is at or below ' ', so missing and whitespace-only names are the rejected ones |
| IngredientInputs.TrimKeepsMiddle | src/main/java/at/ac/tuwien/sepm/assignment/groupphase/application/ui/RecipeController.java:333 | `trim()` returns a contiguous middle part of the string, and everything it drops on either side is characters at or below ' ' |
| IngredientInputs.CustomAlert | src/main/java/at/ac/tuwien/sepm/assignment/groupphase/application/ui/RecipeController.java:364-406 | (body) the exact message text of each custom-ingredient alert, typos included |
| IngredientInputs.CustomIngredientRejection | src/main/java/at/ac/tuwien/sepm/assignment/groupphase/application/ui/RecipeController.java:353-401 | (body) the fail-fast chain: the first failing check's alert, or none; its meaning is CustomRejectionIsFirstViolation's |
| IngredientInputs.ValidateCustomIngredientInputs | src/main/java/at/ac/tuwien/sepm/assignment/groupphase/application/ui/RecipeController.java:353-401 | (body) `validateCustomIngredientInputs` returns true exactly when the chain raises no alert |
| IngredientInputs.ValidateNutrientRange | src/main/java/at/ac/tuwien/sepm/assignment/groupphase/application/ui/RecipeController.java:403-410 | passes iff the value is present and in the closed interval [0,100]; otherwise raises the alert for that nutrient |
| IngredientInputs.FirstViolated | src/main/java/at/ac/tuwien/sepm/assignment/groupphase/application/ui/RecipeController.java:353-401 | (body) the reference the chain is measured against: the rules stated by `Violates`, taken in check order, and the first one broken |
| IngredientInputs.ChainReportsFirstViolated | src/main/java/at/ac/tuwien/sepm/assignment/groupphase/application/ui/RecipeController.java:353-401 | the source's chain, with its trim tests and its nutrient-range helper, reports exactly the earliest broken rule (`FirstViolated`) |
| IngredientInputs.RejectionIsEarliest | src/main/java/at/ac/tuwien/sepm/assignment/groupphase/application/ui/RecipeController.java:353-401 | the earliest broken rule, if any, is broken and every rule before it holds; when no rule is reported, all nine hold |
| IngredientInputs.CustomRejectionIsFirstViolation | src/main/java/at/ac/tuwien/sepm/assignment/groupphase/application/ui/RecipeController.java:353-401 | the custom chain returns true iff no rule is broken, and reports alert c iff rule c is broken and every earlier rule holds, in the order amount, kcal, fat, carbs, protein, unit grams, unit name, name, sum |
| IngredientInputs.CustomBoundaries | src/main/java/at/ac/tuwien/sepm/assignment/groupphase/application/ui/RecipeController.java:363-398 | kcal 0 and a nutrient sum of exactly 100 pass, while amount and unit grams must be strictly positive (a zero amount gets the amount alert) |
| IngredientInputs.CreateCustomIngredient | src/main/java/at/ac/tuwien/sepm/assignment/groupphase/application/ui/RecipeController.java:412-423 | a custom ingredient carries no id and takes every other value from the form |
| IngredientInputs.SearchAlert | src/main/java/at/ac/tuwien/sepm/assignment/groupphase/application/ui/RecipeController.java:327-347 | (body) the exact message text of each search-ingredient alert |
| IngredientInputs.SearchIngredientRejection | src/main/java/at/ac/tuwien/sepm/assignment/groupphase/application/ui/RecipeController.java:325-351 | (body) the fail-fast chain: nothing selected, blank amount text, amount not positive, id already tracked, in that order; its meaning is SearchRejectionSpec's |
| IngredientInputs.SearchVerdictAtDuplicateCheck | src/main/java/at/ac/tuwien/sepm/assignment/groupphase/application/ui/RecipeController.java:344-350 | once something is selected and the amount text and amount pass, the chain accepts iff no tracked ingredient has the selected id |
| IngredientInputs.SearchRejectionSpec | src/main/java/at/ac/tuwien/sepm/assignment/groupphase/application/ui/RecipeController.java:325-351 | the search chain passes iff something is selected, the amount text is not blank, the amount is positive and no tracked ingredient has the same id; each of the four alerts is reported exactly when its check fails and every earlier check passes: no selection, then a missing or blank amount text, then a missing or non-positive amount, then a tracked ingredient with the same id |
| RecipeUi.CheckedTags | src/main/java/at/ac/tuwien/sepm/assignment/groupphase/application/ui/RecipeController.java:253-259 | the saved tag set holds a tag iff its checkbox is selected |
| RecipeUi.SelectTags | src/main/java/at/ac/tuwien/sepm/assignment/groupphase/application/ui/RecipeController.java:168-173 | a checkbox ends selected iff it was selected already or the recipe has its tag |
| RecipeUi.CheckboxRoundTrip | src/main/java/at/ac/tuwien/sepm/assignment/groupphase/application/ui/RecipeController.java:253-260 | loading tags into clear checkboxes and saving gives the same tags back; saving checkboxes and loading them into clear ones gives the same checkboxes |
| RecipeUi.RemoveFirst | src/main/java/at/ac/tuwien/sepm/assignment/groupphase/application/ui/RecipeController.java:319 | (body) `ArrayList.remove(Object)`: walks the list and drops the first entry equal to the argument; its meaning is stated by the three lemmas below |
| RecipeUi.RemoveFirstCutsFirstOccurrence | src/main/java/at/ac/tuwien/sepm/assignment/groupphase/application/ui/RecipeController.java:319 | `List.remove(Object)` leaves the list unchanged when the element is absent, and otherwise cuts out only its first occurrence, keeping the entries before and after it in order |
| RecipeUi.RemoveFirstTakesOneOccurrence | src/main/java/at/ac/tuwien/sepm/assignment/groupphase/application/ui/RecipeController.java:319 | removal lowers the multiplicity of the removed entry by one (if it occurred at all) and leaves every other entry's multiplicity unchanged |
| RecipeUi.RemoveFirstShrinksByOne | src/main/java/at/ac/tuwien/sepm/assignment/groupphase/application/ui/RecipeController.java:319 | the list shrinks by exactly one entry iff the removed entry was present |
| RecipeUi.RecipeController.constructor | src/main/java/at/ac/tuwien/sepm/assignment/groupphase/application/ui/RecipeController.java:126-129 | the dialog starts with nothing tracked, no checkbox selected, not in edit mode and no recipe |
| RecipeUi.RecipeController.AddIngredient | src/main/java/at/ac/tuwien/sepm/assignment/groupphase/application/ui/RecipeController.java:309-315 | appends the ingredient at the end of the tracking list |
| RecipeUi.RecipeController.DeleteIngredient | src/main/java/at/ac/tuwien/sepm/assignment/groupphase/application/ui/RecipeController.java:317-323 | removes the first equal entry; the other entries keep their relative order |
| RecipeUi.RecipeController.IsCommonIngredientAlreadyPresent | src/main/java/at/ac/tuwien/sepm/assignment/groupphase/application/ui/RecipeController.java:286-295 | true iff some tracked ingredient has the new ingredient's id |
| RecipeUi.RecipeController.ValidateSearchIngredientInputs | src/main/java/at/ac/tuwien/sepm/assignment/groupphase/application/ui/RecipeController.java:325-351 | true iff the search chain raises no alert against the current tracking list |
| RecipeUi.RecipeController.OnAddButtonClicked | src/main/java/at/ac/tuwien/sepm/assignment/groupphase/application/ui/RecipeController.java:228-242 | the ingredient, with the parsed amount in search mode, is appended iff its mode's validator passes; otherwise the list is unchanged |
| RecipeUi.RecipeController.InitializeView | src/main/java/at/ac/tuwien/sepm/assignment/groupphase/application/ui/RecipeController.java:131-179 | a fresh tracking list; for a recipe: edit mode, its ingredients tracked in order, and its tags' checkboxes selected; without one: a new recipe with all fields null |
| RecipeUi.RecipeController.OnSaveButtonClicked | src/main/java/at/ac/tuwien/sepm/assignment/groupphase/application/ui/RecipeController.java:244-261 | writes name, duration, description and the checked tags into the recipe and changes no other field |

## Left out

- JavaFX wiring is not modelled: table and cell factories, listeners, alerts as windows, the stage, the mode toggle button, and the search box's service query (`updateIngredientSearch`). An alert is modelled as the rejection value it would show.
- The text controls, the slider and the checkboxes' on-screen state are not modelled as widgets. Their contents are parameters or fields. Copying a recipe's name, duration and description into the controls in `initializeView` is left out, and so is the platform-dependent newline substitution in the description.
- `ValidationUtilUi.validateAndGet` is not part of this model. Its result is an input of type `Option<real>`, and no floating-point precision is claimed.
- The service calls in `onSaveButtonClicked` (`update`/`create`), the success alert, the notification and closing the window are external and are not modelled. So is the service layer's own recipe validation.
- `RecipeIngredient` is not part of this model. It is a value datatype with the fields the dialog reads or writes. The boolean passed to its constructor at RecipeController.java:422 is not modelled. `equals` is taken to be value equality for `deleteIngredient`.
- Search-mode adding mutates the selected `RecipeIngredient` object in place, and the tracking list then holds that same reference. The model appends a copy carrying the new amount, so this aliasing is not modelled.
- `Recipe.java` as modelled has no no-argument constructor and no ingredient-list accessors, although `RecipeController` uses them.
  - `new Recipe()` is modelled as a recipe whose fields are all null.
  - `getRecipeIngredients()` becomes the `recipeIngredients` parameter of `InitializeView`.
  - `setRecipeIngredients` is not modelled.
- RecipeUi.RecipeController.IsCommonIngredientAlreadyPresent requires every tracked ingredient and the new one to carry an id. The source unboxes every id it visits, and a custom ingredient has none. What happens on a missing id depends on `RecipeIngredient`, so no behaviour is claimed for it. The search chain reaches this search only when something is selected, the amount text is not blank and the amount is positive (`ReachesDuplicateCheck`). So IngredientInputs.SearchIngredientRejection, IngredientInputs.SearchRejectionSpec, ValidateSearchIngredientInputs and OnAddButtonClicked in search mode require ids only in that case. A blank or non-positive amount is rejected whatever ids the list holds.
- RecipeUi.RecipeController.InitializeView requires a given recipe to have a duration, a description and tags. The source unboxes or dereferences each of them, and the NullPointerException it would throw otherwise is not modelled.
- RecipeUi.RecipeController.constructor starts with an empty tracking list. In the source the list is null until `initializeView` creates it, and the source constructor only stores the two services.
- The `Integer` id is an unbounded `int`. The 32-bit range plays no part in the equality test.
- RecipeTags.SplitChars splits a string into Unicode scalar values, which is what a Dafny `char` is. A Java `String` is UTF-16, and `split("")` cuts a character outside the Basic Multilingual Plane into its two surrogate halves. For such a character the model reports the whole character as the rejected piece, where Java's `valueOf` rejects the lone high surrogate. Whether decoding succeeds, and the decoded set, are the same in both.
- `Encode` takes a set, so the result cannot depend on the order in which tags were added. No separate lemma states this.
