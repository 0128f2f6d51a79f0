/**
 * The recipe dialog's input rules for adding an ingredient: the fail-fast
 * chain for a custom ingredient, the one for an ingredient picked from the
 * search box, and Java's String.trim that both use for blank text.
 * Numeric text fields arrive already parsed (None where the parser gave null).
 */
module IngredientInputs {
  import opened Wrappers

  // ---------------------------------------------------------------------------
  // String.trim: strips every character at or below ' ' from both ends.

  predicate IsBlank(s: string)
  {
    forall i :: 0 <= i < |s| ==> s[i] <= ' '
  }

  function TrimStart(s: string): (r: string)
    ensures |r| <= |s| && r == s[|s| - |r|..]
    ensures IsBlank(s[..|s| - |r|])
    ensures r == [] || r[0] > ' '
  {
    if s != [] && s[0] <= ' ' then
      var r := TrimStart(s[1..]);
      assert s[..|s| - |r|] == [s[0]] + s[1..][..|s| - 1 - |r|];
      r
    else s
  }

  function TrimEnd(s: string): (r: string)
    ensures |r| <= |s| && r == s[..|r|]
    ensures IsBlank(s[|r|..])
    ensures r == [] || r[|r| - 1] > ' '
  {
    if s != [] && s[|s| - 1] <= ' ' then
      var r := TrimEnd(s[..|s| - 1]);
      assert s[|r|..] == s[..|s| - 1][|r|..] + [s[|s| - 1]];
      r
    else s
  }

  /** String.trim: the text between the first and the last character above ' '. */
  function Trim(s: string): (r: string)
    ensures |r| <= |s|
    ensures r == [] || (r[0] > ' ' && r[|r| - 1] > ' ')
  {
    TrimEnd(TrimStart(s))
  }

  /** trim().length() == 0 holds exactly for the strings made of whitespace and control characters only. */
  lemma TrimEmptyIffBlank(s: string)
    ensures |Trim(s)| == 0 <==> IsBlank(s)
  {
    var t := TrimStart(s);
    if |Trim(s)| == 0 {
      assert t == t[..0] + t[0..];
      assert s == s[..|s| - |t|] + t;
    }
  }

  /**
   * A prefix r of a suffix t of s, where only blank text lies before t and
   * after r, is a middle part of s with blank text on either side.
   */
  lemma BlankAroundMiddle(s: string, t: string, r: string)
    requires |t| <= |s| && t == s[|s| - |t|..] && IsBlank(s[..|s| - |t|])
    requires |r| <= |t| && r == t[..|r|] && IsBlank(t[|r|..])
    ensures exists k :: 0 <= k <= |s| - |r| && r == s[k..k + |r|] && IsBlank(s[..k]) && IsBlank(s[k + |r|..])
  {
    var k := |s| - |t|;
    assert s[k..][..|r|] == s[k..k + |r|];
    assert s[k..][|r|..] == s[k + |r|..];
  }

  /** trim() keeps a contiguous middle part of s and drops only blank text on either side of it. */
  lemma TrimKeepsMiddle(s: string)
    ensures exists k :: 0 <= k <= |s| - |Trim(s)| && Trim(s) == s[k..k + |Trim(s)|] &&
                        IsBlank(s[..k]) && IsBlank(s[k + |Trim(s)|..])
  {
    BlankAroundMiddle(s, TrimStart(s), Trim(s));
  }

  // ---------------------------------------------------------------------------
  // Custom ingredient: validateCustomIngredientInputs and validateNutrientRange

  /** The custom-ingredient form as read by the validator. */
  datatype CustomInputs = CustomInputs(
    amount: Option<real>,
    kcal: Option<real>,
    fat: Option<real>,
    carbs: Option<real>,
    protein: Option<real>,
    unitGrams: Option<real>,
    unitName: Option<string>,
    name: Option<string>)

  datatype Nutrient = Fat | Carbohydrates | Protein

  /** The name validateNutrientRange is called with. */
  function NutrientName(n: Nutrient): string
  {
    match n
    case Fat => "fat"
    case Carbohydrates => "carbohydrates"
    case Protein => "protein"
  }

  function NutrientValue(inputs: CustomInputs, n: Nutrient): Option<real>
  {
    match n
    case Fat => inputs.fat
    case Carbohydrates => inputs.carbs
    case Protein => inputs.protein
  }

  /** The single alert a failed custom-ingredient check shows. */
  datatype CustomRejection =
    | AmountNotPositive
    | KcalNegative
    | NutrientOutOfRange(nutrient: Nutrient)
    | UnitGramsNotPositive
    | UnitNameMissing
    | NameMissing
    | NutrientSumOver100

  /** The alert's message text. */
  function CustomAlert(r: CustomRejection): string
  {
    match r
    case AmountNotPositive => "Ingredient Amount must be a true positve number."
    case KcalNegative => "Ingredient Energy (kcal) must be a positve number."
    case NutrientOutOfRange(n) => "Ingredient " + NutrientName(n) + "/100g must be a a number between [0,100]."
    case UnitGramsNotPositive => "Ingredient Unit Grams must be a positve number."
    case UnitNameMissing => "Ingredient Unit Name must be selected."
    case NameMissing => "Ingredient Name must have at least 1 character."
    case NutrientSumOver100 => "Sum of proteins, carbohydrates and fats per 100g must be lower than 100."
  }

  /** validateNutrientRange: a missing value or one outside [0,100] raises the nutrient's alert. */
  function ValidateNutrientRange(nutrient: Option<real>, n: Nutrient): (r: Option<CustomRejection>)
    ensures r.None? <==> nutrient.Some? && 0.0 <= nutrient.value <= 100.0
    ensures r.Some? ==> r.value == NutrientOutOfRange(n)
  {
    if nutrient.None? || nutrient.value < 0.0 || nutrient.value > 100.0 then Some(NutrientOutOfRange(n))
    else None
  }

  /** validateCustomIngredientInputs: the alert of the first failing check, None when all pass. */
  function CustomIngredientRejection(inputs: CustomInputs): Option<CustomRejection>
  {
    if inputs.amount.None? || inputs.amount.value <= 0.0 then Some(AmountNotPositive)
    else if inputs.kcal.None? || inputs.kcal.value < 0.0 then Some(KcalNegative)
    else if ValidateNutrientRange(inputs.fat, Fat).Some? then ValidateNutrientRange(inputs.fat, Fat)
    else if ValidateNutrientRange(inputs.carbs, Carbohydrates).Some? then ValidateNutrientRange(inputs.carbs, Carbohydrates)
    else if ValidateNutrientRange(inputs.protein, Protein).Some? then ValidateNutrientRange(inputs.protein, Protein)
    else if inputs.unitGrams.None? || inputs.unitGrams.value <= 0.0 then Some(UnitGramsNotPositive)
    else if inputs.unitName.None? || |Trim(inputs.unitName.value)| <= 0 then Some(UnitNameMissing)
    else if inputs.name.None? || |Trim(inputs.name.value)| <= 0 then Some(NameMissing)
    else if inputs.fat.value + inputs.carbs.value + inputs.protein.value > 100.0 then Some(NutrientSumOver100)
    else None
  }

  /** The boolean validateCustomIngredientInputs returns. */
  predicate ValidateCustomIngredientInputs(inputs: CustomInputs)
  {
    CustomIngredientRejection(inputs).None?
  }

  /** Each rule of the form stated on its own, independently of the chain. */
  predicate Violates(inputs: CustomInputs, c: CustomRejection)
  {
    match c
    case AmountNotPositive => !(inputs.amount.Some? && inputs.amount.value > 0.0)
    case KcalNegative => !(inputs.kcal.Some? && inputs.kcal.value >= 0.0)
    case NutrientOutOfRange(n) =>
      !(NutrientValue(inputs, n).Some? && 0.0 <= NutrientValue(inputs, n).value <= 100.0)
    case UnitGramsNotPositive => !(inputs.unitGrams.Some? && inputs.unitGrams.value > 0.0)
    case UnitNameMissing => inputs.unitName.None? || IsBlank(inputs.unitName.value)
    case NameMissing => inputs.name.None? || IsBlank(inputs.name.value)
    case NutrientSumOver100 =>
      inputs.fat.Some? && inputs.carbs.Some? && inputs.protein.Some? &&
      inputs.fat.value + inputs.carbs.value + inputs.protein.value > 100.0
  }

  /** The position of each check in the chain. */
  function CheckOrder(c: CustomRejection): nat
  {
    match c
    case AmountNotPositive => 0
    case KcalNegative => 1
    case NutrientOutOfRange(n) => (match n case Fat => 2 case Carbohydrates => 3 case Protein => 4)
    case UnitGramsNotPositive => 5
    case UnitNameMissing => 6
    case NameMissing => 7
    case NutrientSumOver100 => 8
  }

  lemma NamesAreTrimmedAsBlank(inputs: CustomInputs)
    ensures inputs.unitName.Some? ==> (|Trim(inputs.unitName.value)| <= 0 <==> IsBlank(inputs.unitName.value))
    ensures inputs.name.Some? ==> (|Trim(inputs.name.value)| <= 0 <==> IsBlank(inputs.name.value))
  {
    if inputs.unitName.Some? { TrimEmptyIffBlank(inputs.unitName.value); }
    if inputs.name.Some? { TrimEmptyIffBlank(inputs.name.value); }
  }

  lemma CheckOrderInjective(a: CustomRejection, b: CustomRejection)
    ensures CheckOrder(a) == CheckOrder(b) ==> a == b
  {
  }

  /** No rule placed before position k is broken. */
  ghost predicate NoViolationBefore(inputs: CustomInputs, k: nat)
  {
    forall e :: CheckOrder(e) < k ==> !Violates(inputs, e)
  }

  /** The same, rule by rule. */
  predicate HoldsBefore(inputs: CustomInputs, k: nat)
  {
    && (k > 0 ==> !Violates(inputs, AmountNotPositive))
    && (k > 1 ==> !Violates(inputs, KcalNegative))
    && (k > 2 ==> !Violates(inputs, NutrientOutOfRange(Fat)))
    && (k > 3 ==> !Violates(inputs, NutrientOutOfRange(Carbohydrates)))
    && (k > 4 ==> !Violates(inputs, NutrientOutOfRange(Protein)))
    && (k > 5 ==> !Violates(inputs, UnitGramsNotPositive))
    && (k > 6 ==> !Violates(inputs, UnitNameMissing))
    && (k > 7 ==> !Violates(inputs, NameMissing))
    && (k > 8 ==> !Violates(inputs, NutrientSumOver100))
  }

  lemma RulesBefore(inputs: CustomInputs, k: nat)
    ensures NoViolationBefore(inputs, k) <==> HoldsBefore(inputs, k)
  {
    if HoldsBefore(inputs, k) {
      forall e | CheckOrder(e) < k ensures !Violates(inputs, e) {
        match e {
          case NutrientOutOfRange(n) =>
          case _ =>
        }
      }
    }
  }

  /** What the chain reports is broken, and every rule before it holds; when it reports nothing, every rule holds. */
  /**
   * The earliest broken rule, taking the rules in the order of the checks;
   * a reference for the chain stated over Violates alone.
   */
  function FirstViolated(inputs: CustomInputs): Option<CustomRejection>
  {
    if Violates(inputs, AmountNotPositive) then Some(AmountNotPositive)
    else if Violates(inputs, KcalNegative) then Some(KcalNegative)
    else if Violates(inputs, NutrientOutOfRange(Fat)) then Some(NutrientOutOfRange(Fat))
    else if Violates(inputs, NutrientOutOfRange(Carbohydrates)) then Some(NutrientOutOfRange(Carbohydrates))
    else if Violates(inputs, NutrientOutOfRange(Protein)) then Some(NutrientOutOfRange(Protein))
    else if Violates(inputs, UnitGramsNotPositive) then Some(UnitGramsNotPositive)
    else if Violates(inputs, UnitNameMissing) then Some(UnitNameMissing)
    else if Violates(inputs, NameMissing) then Some(NameMissing)
    else if Violates(inputs, NutrientSumOver100) then Some(NutrientSumOver100)
    else None
  }

  /** The source's chain, with its trim tests and nutrient helper, reports the earliest broken rule. */
  lemma ChainReportsFirstViolated(inputs: CustomInputs)
    ensures CustomIngredientRejection(inputs) == FirstViolated(inputs)
  {
    NamesAreTrimmedAsBlank(inputs);
    var r := CustomIngredientRejection(inputs);
    var f := FirstViolated(inputs);
    if inputs.amount.None? || inputs.amount.value <= 0.0 {
      assert r == Some(AmountNotPositive) && f == Some(AmountNotPositive);
    } else if inputs.kcal.None? || inputs.kcal.value < 0.0 {
      assert r == Some(KcalNegative) && f == Some(KcalNegative);
    } else if ValidateNutrientRange(inputs.fat, Fat).Some? {
      assert r == Some(NutrientOutOfRange(Fat)) && f == Some(NutrientOutOfRange(Fat));
    } else if ValidateNutrientRange(inputs.carbs, Carbohydrates).Some? {
      assert r == Some(NutrientOutOfRange(Carbohydrates)) && f == Some(NutrientOutOfRange(Carbohydrates));
    } else if ValidateNutrientRange(inputs.protein, Protein).Some? {
      assert r == Some(NutrientOutOfRange(Protein)) && f == Some(NutrientOutOfRange(Protein));
    } else if inputs.unitGrams.None? || inputs.unitGrams.value <= 0.0 {
      assert r == Some(UnitGramsNotPositive) && f == Some(UnitGramsNotPositive);
    } else if inputs.unitName.None? || |Trim(inputs.unitName.value)| <= 0 {
      assert r == Some(UnitNameMissing) && f == Some(UnitNameMissing);
    } else if inputs.name.None? || |Trim(inputs.name.value)| <= 0 {
      assert r == Some(NameMissing) && f == Some(NameMissing);
    } else if inputs.fat.value + inputs.carbs.value + inputs.protein.value > 100.0 {
      assert r == Some(NutrientSumOver100) && f == Some(NutrientSumOver100);
    } else {
      assert r == None && f == None;
    }
  }

  lemma RejectionIsEarliest(inputs: CustomInputs)
    ensures FirstViolated(inputs).None? ==> HoldsBefore(inputs, 9)
    ensures FirstViolated(inputs).Some? ==>
              Violates(inputs, FirstViolated(inputs).value) &&
              HoldsBefore(inputs, CheckOrder(FirstViolated(inputs).value))
  {
    var r := FirstViolated(inputs);
    if Violates(inputs, AmountNotPositive) {
      assert r == Some(AmountNotPositive);
    } else if Violates(inputs, KcalNegative) {
      assert r == Some(KcalNegative);
    } else if Violates(inputs, NutrientOutOfRange(Fat)) {
      assert r == Some(NutrientOutOfRange(Fat));
    } else if Violates(inputs, NutrientOutOfRange(Carbohydrates)) {
      assert r == Some(NutrientOutOfRange(Carbohydrates));
    } else if Violates(inputs, NutrientOutOfRange(Protein)) {
      assert r == Some(NutrientOutOfRange(Protein));
    } else if Violates(inputs, UnitGramsNotPositive) {
      assert r == Some(UnitGramsNotPositive);
    } else if Violates(inputs, UnitNameMissing) {
      assert r == Some(UnitNameMissing);
    } else if Violates(inputs, NameMissing) {
      assert r == Some(NameMissing);
    } else if Violates(inputs, NutrientSumOver100) {
      assert r == Some(NutrientSumOver100);
    } else {
      assert r == None;
    }
  }

  lemma AllRulesPrecedePositionNine(inputs: CustomInputs)
    ensures NoViolationBefore(inputs, 9) <==> forall e :: !Violates(inputs, e)
  {
    if NoViolationBefore(inputs, 9) {
      forall e ensures !Violates(inputs, e) {
        assert CheckOrder(e) < 9;
      }
    }
  }

  /**
   * The chain accepts exactly the inputs that break no rule, and otherwise
   * reports the earliest broken rule in the order amount, kcal, fat, carbs,
   * protein, unit grams, unit name, name, nutrient sum.
   */
  lemma CustomRejectionIsFirstViolation(inputs: CustomInputs, c: CustomRejection)
    ensures ValidateCustomIngredientInputs(inputs) <==> forall e :: !Violates(inputs, e)
    ensures CustomIngredientRejection(inputs) == Some(c) <==> Violates(inputs, c) && NoViolationBefore(inputs, CheckOrder(c))
  {
    ChainReportsFirstViolated(inputs);
    RejectionIsEarliest(inputs);
    AllRulesPrecedePositionNine(inputs);
    var r := CustomIngredientRejection(inputs);
    RulesBefore(inputs, 9);
    RulesBefore(inputs, CheckOrder(c));
    if r.Some? {
      RulesBefore(inputs, CheckOrder(r.value));
    }
    if Violates(inputs, c) && NoViolationBefore(inputs, CheckOrder(c)) {
      assert r.Some?;
      assert CheckOrder(r.value) == CheckOrder(c);
      CheckOrderInjective(r.value, c);
    }
  }

  /**
   * The boundaries the chain draws: zero kcal and a nutrient sum of exactly
   * 100 pass, while a zero amount or zero unit grams is rejected.
   */
  lemma CustomBoundaries(inputs: CustomInputs)
    requires inputs.amount.Some? && inputs.unitGrams.Some? && inputs.kcal == Some(0.0)
    requires inputs.fat.Some? && inputs.carbs.Some? && inputs.protein.Some?
    requires 0.0 <= inputs.fat.value && 0.0 <= inputs.carbs.value && 0.0 <= inputs.protein.value
    requires inputs.fat.value + inputs.carbs.value + inputs.protein.value == 100.0
    requires inputs.unitName.Some? && !IsBlank(inputs.unitName.value)
    requires inputs.name.Some? && !IsBlank(inputs.name.value)
    ensures ValidateCustomIngredientInputs(inputs) <==> inputs.amount.value > 0.0 && inputs.unitGrams.value > 0.0
    ensures inputs.amount == Some(0.0) ==> CustomIngredientRejection(inputs) == Some(AmountNotPositive)
  {
    NamesAreTrimmedAsBlank(inputs);
  }

  // ---------------------------------------------------------------------------
  // Ingredient picked from the search box: validateSearchIngredientInputs

  /** A recipe ingredient as the dialog holds it; catalog ingredients carry an id, custom ones do not. */
  datatype Ingredient = Ingredient(
    id: Option<int>,
    name: Option<string>,
    unitName: Option<string>,
    unitGrams: Option<real>,
    amount: Option<real>,
    kcal: Option<real>,
    fat: Option<real>,
    protein: Option<real>,
    carbs: Option<real>)

  /** createCustomIngredient: the form's values, without an id. */
  function CreateCustomIngredient(inputs: CustomInputs): (i: Ingredient)
    ensures i.id.None?
    ensures i.name == inputs.name && i.unitName == inputs.unitName && i.unitGrams == inputs.unitGrams && i.amount == inputs.amount
    ensures i.kcal == inputs.kcal && i.fat == inputs.fat && i.protein == inputs.protein && i.carbs == inputs.carbs
  {
    Ingredient(None, inputs.name, inputs.unitName, inputs.unitGrams, inputs.amount,
               inputs.kcal, inputs.fat, inputs.protein, inputs.carbs)
  }

  /** The one alert a failed search-ingredient check shows. */
  datatype SearchRejection = NothingSelected | AmountBlank | AmountNotPositiveNumber | AlreadyAdded

  function SearchAlert(r: SearchRejection): string
  {
    match r
    case NothingSelected => "Enter and choose a ingredient name, hit enter and then give me an amount to continue."
    case AmountBlank => "Ingredient amount must be set to a number."
    case AmountNotPositiveNumber => "Ingredient amount needs to be a true positive decimal number."
    case AlreadyAdded => "This Ingredient has already been added to the recipe. If you want to change the amount, please correct your added ingredient."
  }

  /** Every tracked ingredient, and the candidate, carry an id (the duplicate check reads them all). */
  predicate IdsPresent(tracked: seq<Ingredient>, candidate: Ingredient)
  {
    candidate.id.Some? && forall i :: 0 <= i < |tracked| ==> tracked[i].id.Some?
  }

  /**
   * The first three search checks pass, so the chain goes on to the duplicate
   * search, which reads the ids.
   */
  predicate ReachesDuplicateCheck(selection: Option<Ingredient>, amountText: Option<string>, amount: Option<real>)
  {
    selection.Some? && amountText.Some? && |Trim(amountText.value)| != 0 && amount.Some? && amount.value > 0.0
  }

  /** Some tracked ingredient has this id. */
  predicate HasId(tracked: seq<Ingredient>, id: int)
  {
    exists i :: 0 <= i < |tracked| && tracked[i].id == Some(id)
  }

  /**
   * validateSearchIngredientInputs: nothing selected, blank amount text, an
   * amount that did not parse or is not positive, an id already tracked; the
   * first that applies is reported.
   */
  function SearchIngredientRejection(selection: Option<Ingredient>, amountText: Option<string>, amount: Option<real>,
                                     tracked: seq<Ingredient>): Option<SearchRejection>
    requires ReachesDuplicateCheck(selection, amountText, amount) ==> IdsPresent(tracked, selection.value)
  {
    if selection.None? then Some(NothingSelected)
    else if amountText.None? || |Trim(amountText.value)| == 0 then Some(AmountBlank)
    else if amount.None? || amount.value <= 0.0 then Some(AmountNotPositiveNumber)
    else if HasId(tracked, selection.value.id.value) then Some(AlreadyAdded)
    else None
  }

  /** Once the first three checks pass, the chain's verdict is the duplicate search's. */
  lemma SearchVerdictAtDuplicateCheck(selection: Option<Ingredient>, amountText: Option<string>, amount: Option<real>,
                                      tracked: seq<Ingredient>)
    requires ReachesDuplicateCheck(selection, amountText, amount) && IdsPresent(tracked, selection.value)
    ensures SearchIngredientRejection(selection, amountText, amount, tracked).None? <==>
              forall i :: 0 <= i < |tracked| ==> tracked[i].id != selection.value.id
  {
  }

  /**
   * The search chain accepts exactly a selection whose amount text is not
   * blank, whose amount is positive and whose id no tracked ingredient has;
   * each alert comes exactly when its check fails and all earlier ones passed.
   */
  lemma SearchRejectionSpec(selection: Option<Ingredient>, amountText: Option<string>, amount: Option<real>,
                            tracked: seq<Ingredient>)
    requires ReachesDuplicateCheck(selection, amountText, amount) ==> IdsPresent(tracked, selection.value)
    ensures SearchIngredientRejection(selection, amountText, amount, tracked).None? <==>
              && selection.Some?
              && amountText.Some? && !IsBlank(amountText.value)
              && amount.Some? && amount.value > 0.0
              && forall i :: 0 <= i < |tracked| ==> tracked[i].id != selection.value.id
    ensures SearchIngredientRejection(selection, amountText, amount, tracked) == Some(AlreadyAdded) <==>
              && selection.Some?
              && amountText.Some? && !IsBlank(amountText.value)
              && amount.Some? && amount.value > 0.0
              && exists i :: 0 <= i < |tracked| && tracked[i].id == selection.value.id
    ensures SearchIngredientRejection(selection, amountText, amount, tracked) == Some(NothingSelected) <==>
              selection.None?
    ensures SearchIngredientRejection(selection, amountText, amount, tracked) == Some(AmountBlank) <==>
              selection.Some? && (amountText.None? || IsBlank(amountText.value))
    ensures SearchIngredientRejection(selection, amountText, amount, tracked) == Some(AmountNotPositiveNumber) <==>
              && selection.Some?
              && amountText.Some? && !IsBlank(amountText.value)
              && (amount.None? || amount.value <= 0.0)
  {
    if amountText.Some? { TrimEmptyIffBlank(amountText.value); }
  }
}
