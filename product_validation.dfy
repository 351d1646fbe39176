/**
 * The validation chains of product create and update, with the two
 * nutrition rules of the healthy-product variant: the grams of fats,
 * proteins and carbohydrates must add up to 100, and the energy they give
 * must not exceed 1000 kcal.
 */
module ProductValidation {
  import opened Wrappers
  import opened BodyValue

  /** The body fields the product chains look at. */
  datatype ProductBody = ProductBody(
    name: Value, description: Value, price: Value, order: Value, availability: Value,
    productCategoryId: Value, restaurantId: Value, fats: Value, proteins: Value, carbs: Value)

  /** What the file helpers report about the uploaded `image`; their code is not part of this model. */
  datatype Upload = Upload(isImage: bool, withinSize: bool)

  /** One `check(...)` line of a chain. */
  datatype Rule =
    | NameRule
    | DescriptionRule
    | PriceRule
    | OrderRule
    | AvailabilityRule
    | ProductCategoryIdRule
    | RestaurantIdRule
    | RestaurantExistsRule
    | ImageFormatRule
    | ImageSizeRule
    | GramsRule
    | CaloriesRule
    | RestaurantIdForbiddenRule

  const RestaurantMissing: string := "The restaurantId does not exist."
  const GramsMessage: string := "The sum of 100 grams cannot exceed 100."
  const CaloriesMessage: string := "The sum of 1000 calories cannot exceed 1000."
  const MaxFileSize := 2_000_000

  // -------------------------------------------------------------------
  // The nutrition rules
  // -------------------------------------------------------------------

  /** `parseFloat`: the number a JSON number holds; NaN (None) for anything else. */
  function ParseFloat(v: Value): (r: Option<real>)
    ensures r.Some? <==> v.Int? || v.Num?
  {
    match v
    case Int(i) => Some(i as real)
    case Num(x) => Some(x)
    case _ => None
  }

  /**
   * `check100grams`: the sum must equal 100 exactly. A NaN operand makes the
   * sum NaN, which is never equal to 100, so a missing value is refused.
   */
  predicate Check100Grams(fats: Value, proteins: Value, carbs: Value) {
    var f, p, c := ParseFloat(fats), ParseFloat(proteins), ParseFloat(carbs);
    f.Some? && p.Some? && c.Some? && f.value + p.value + c.value == 100.0
  }

  /**
   * `noMoreThan1000Calories`: refused only when the energy is known and above
   * 1000. A NaN operand makes the comparison false, so a missing value passes.
   */
  predicate NoMoreThan1000Calories(fats: Value, proteins: Value, carbs: Value) {
    var f, p, c := ParseFloat(fats), ParseFloat(proteins), ParseFloat(carbs);
    !(f.Some? && p.Some? && c.Some? && f.value * 9.0 + p.value * 4.0 + c.value * 4.0 > 1000.0)
  }

  /** Once the grams add up to 100 the energy is 400 + 5·fats, so the energy rule reduces to fats <= 120. */
  lemma GramsFixCalories(fats: Value, proteins: Value, carbs: Value)
    requires Check100Grams(fats, proteins, carbs)
    ensures NoMoreThan1000Calories(fats, proteins, carbs) <==> ParseFloat(fats).value <= 120.0
  {
    var f, p, c := ParseFloat(fats).value, ParseFloat(proteins).value, ParseFloat(carbs).value;
    assert f * 9.0 + p * 4.0 + c * 4.0 == 400.0 + 5.0 * f by {
      assert p + c == 100.0 - f;
    }
  }

  /** Neither rule checks signs: negative grams that sum to 100 are accepted. */
  lemma NegativeGramsAccepted()
    ensures Check100Grams(Int(-10), Int(100), Int(10))
    ensures NoMoreThan1000Calories(Int(-10), Int(100), Int(10))
  {
  }

  /** A missing nutrient fails the grams rule and passes the energy rule. */
  lemma MissingNutrient(proteins: Value, carbs: Value)
    ensures !Check100Grams(Absent, proteins, carbs)
    ensures NoMoreThan1000Calories(Absent, proteins, carbs)
  {
  }

  /** Exactly 1000 kcal passes; the boundary is strict. */
  lemma CaloriesBoundary()
    ensures Check100Grams(Int(120), Int(-20), Int(0)) && NoMoreThan1000Calories(Int(120), Int(-20), Int(0))
    ensures Check100Grams(Int(121), Int(-21), Int(0)) && !NoMoreThan1000Calories(Int(121), Int(-21), Int(0))
  {
  }

  /** `checkRestaurantExists`: `findByPk(req.body.restaurantId)` finds a row. */
  predicate RestaurantExists(restaurantId: Value, restaurants: set<int>) {
    restaurantId.Int? && restaurantId.i in restaurants
  }

  // -------------------------------------------------------------------
  // The field rules
  // -------------------------------------------------------------------

  /** The values `optional({ checkFalsy: true })` skips (the number 0 is `Int(0)`, whatever its spelling). */
  predicate Falsy(v: Value) {
    v == Absent || v == Null || v == Text("") || v == Int(0) || v == Bool(false)
  }

  /** `isFloat({ min })`. */
  predicate IsFloatAtLeast(v: Value, min: real) {
    (v.Int? && v.i as real >= min) || (v.Num? && v.r >= min)
  }

  /** `isBoolean()`: the value written out is one of "true", "false", "1", "0". */
  predicate IsBoolean(v: Value) {
    v.Bool? || v == Int(0) || v == Int(1) || (v.Text? && v.s in {"true", "false", "1", "0"})
  }

  /** Whether one rule passes on a body. */
  predicate Holds(rule: Rule, body: ProductBody, restaurants: set<int>, upload: Upload) {
    match rule
    case NameRule => IsStringOfLength(body.name, 1, 255)
    case DescriptionRule => Falsy(body.description) || (body.description.Text? && |body.description.s| >= 1)
    case PriceRule => IsFloatAtLeast(body.price, 0.0)
    // `default(null)` turns "" into null, which `optional({ nullable: true })` then skips.
    case OrderRule => body.order in {Absent, Null, Text("")} || body.order.Int?
    case AvailabilityRule => body.availability == Absent || IsBoolean(body.availability)
    case ProductCategoryIdRule => IsIntAtLeast(body.productCategoryId, 1)
    case RestaurantIdRule => IsIntAtLeast(body.restaurantId, 1)
    case RestaurantExistsRule => RestaurantExists(body.restaurantId, restaurants)
    case ImageFormatRule => upload.isImage
    case ImageSizeRule => upload.withinSize
    case GramsRule => Check100Grams(body.fats, body.proteins, body.carbs)
    case CaloriesRule => NoMoreThan1000Calories(body.fats, body.proteins, body.carbs)
    case RestaurantIdForbiddenRule => !Exists(body.restaurantId)
  }

  /** The field rules both chains open with. */
  function FieldRules(): seq<Rule> {
    [NameRule, DescriptionRule, PriceRule, OrderRule, AvailabilityRule, ProductCategoryIdRule]
  }

  /** The two checks on the uploaded image. */
  function ImageRules(): seq<Rule> {
    [ImageFormatRule, ImageSizeRule]
  }

  /** The rules of create, in chain order. */
  function CreateChain(): seq<Rule> {
    FieldRules() + [RestaurantIdRule, RestaurantExistsRule] + ImageRules() + [GramsRule, CaloriesRule]
  }

  /** The rules of update, in chain order; the restaurantId rule is listed twice. */
  function UpdateChain(): seq<Rule> {
    FieldRules() + [RestaurantIdForbiddenRule] + ImageRules() + [RestaurantIdForbiddenRule]
  }

  /** The rules of a chain that fail, in chain order, each as often as the chain lists it. */
  function FailingRules(rules: seq<Rule>, body: ProductBody, restaurants: set<int>, upload: Upload): seq<Rule> {
    if |rules| == 0 then []
    else (if Holds(rules[0], body, restaurants, upload) then [] else [rules[0]]) + FailingRules(rules[1..], body, restaurants, upload)
  }

  /** A chain reports nothing exactly when each of its rules passes. */
  lemma {:induction false} FailingNone(rules: seq<Rule>, body: ProductBody, restaurants: set<int>, upload: Upload)
    ensures FailingRules(rules, body, restaurants, upload) == [] <==>
              forall i :: 0 <= i < |rules| ==> Holds(rules[i], body, restaurants, upload)
  {
    if |rules| > 0 {
      FailingNone(rules[1..], body, restaurants, upload);
      assert forall i :: 1 <= i < |rules| ==> rules[i] == rules[1..][i - 1];
    }
  }

  /** A failing rule is reported as often as the chain lists it; a passing one never. */
  lemma {:induction false} FailingCount(rules: seq<Rule>, body: ProductBody, restaurants: set<int>, upload: Upload, x: Rule)
    ensures multiset(FailingRules(rules, body, restaurants, upload))[x] ==
              if Holds(x, body, restaurants, upload) then 0 else multiset(rules)[x]
  {
    if |rules| > 0 {
      FailingCount(rules[1..], body, restaurants, upload, x);
      assert rules == [rules[0]] + rules[1..];
    }
  }

  /** The errors create reports. */
  function CreateErrors(body: ProductBody, restaurants: set<int>, upload: Upload): seq<Rule> {
    FailingRules(CreateChain(), body, restaurants, upload)
  }

  /** The errors update reports. */
  function UpdateErrors(body: ProductBody, upload: Upload): seq<Rule> {
    FailingRules(UpdateChain(), body, {}, upload)
  }

  /** What create's chain accepts, written out field by field. */
  lemma CreateAcceptedMeaning(body: ProductBody, restaurants: set<int>, upload: Upload)
    ensures CreateErrors(body, restaurants, upload) == [] <==>
              && body.name.Text? && 1 <= |body.name.s| <= 255
              && (Falsy(body.description) || body.description.Text?)
              && IsFloatAtLeast(body.price, 0.0)
              && (body.order in {Absent, Null, Text("")} || body.order.Int?)
              && (body.availability == Absent || IsBoolean(body.availability))
              && body.productCategoryId.Int? && body.productCategoryId.i >= 1
              && body.restaurantId.Int? && body.restaurantId.i >= 1 && body.restaurantId.i in restaurants
              && upload.isImage && upload.withinSize
              && Check100Grams(body.fats, body.proteins, body.carbs)
              && NoMoreThan1000Calories(body.fats, body.proteins, body.carbs)
  {
    var c := CreateChain();
    FailingNone(c, body, restaurants, upload);
    assert c[0] == NameRule && c[1] == DescriptionRule && c[2] == PriceRule && c[3] == OrderRule;
    assert c[4] == AvailabilityRule && c[5] == ProductCategoryIdRule && c[6] == RestaurantIdRule;
    assert c[7] == RestaurantExistsRule && c[8] == ImageFormatRule && c[9] == ImageSizeRule;
    assert c[10] == GramsRule && c[11] == CaloriesRule;
  }

  /** The nutrition fields never matter to update. */
  lemma UpdateIgnoresNutrition(body: ProductBody, fats: Value, proteins: Value, carbs: Value, upload: Upload)
    ensures UpdateErrors(body.(fats := fats, proteins := proteins, carbs := carbs), upload) == UpdateErrors(body, upload)
  {
    var other := body.(fats := fats, proteins := proteins, carbs := carbs);
    forall rule | rule in UpdateChain()
      ensures Holds(rule, other, {}, upload) == Holds(rule, body, {}, upload)
    {
    }
    UnusedFieldsIgnored(UpdateChain(), body, other, upload);
  }

  /** Two bodies on which every rule of a chain agrees get the same errors. */
  lemma {:induction false} UnusedFieldsIgnored(rules: seq<Rule>, a: ProductBody, b: ProductBody, upload: Upload)
    requires forall rule :: rule in rules ==> Holds(rule, a, {}, upload) == Holds(rule, b, {}, upload)
    ensures FailingRules(rules, a, {}, upload) == FailingRules(rules, b, {}, upload)
  {
    if |rules| > 0 {
      assert rules[0] in rules;
      assert forall rule :: rule in rules[1..] ==> rule in rules;
      UnusedFieldsIgnored(rules[1..], a, b, upload);
    }
  }

  /** Failing rules of a split chain are those of its two halves. */
  lemma {:induction false} FailingAppend(a: seq<Rule>, b: seq<Rule>, body: ProductBody, restaurants: set<int>, upload: Upload)
    ensures FailingRules(a + b, body, restaurants, upload) ==
              FailingRules(a, body, restaurants, upload) + FailingRules(b, body, restaurants, upload)
  {
    if |a| > 0 {
      assert (a + b)[1..] == a[1..] + b;
      assert (a + b)[0] == a[0];
      FailingAppend(a[1..], b, body, restaurants, upload);
    } else {
      assert a + b == b;
    }
  }

  /**
   * Sending a restaurantId to update is reported twice, once per listed
   * rule, and the second report comes after both image rules.
   */
  lemma RestaurantIdReportedTwice(body: ProductBody, upload: Upload)
    requires Exists(body.restaurantId)
    ensures var e := UpdateErrors(body, upload);
            exists i, j :: 0 <= i < j < |e| && e[i] == RestaurantIdForbiddenRule && e[j] == RestaurantIdForbiddenRule
    ensures multiset(UpdateErrors(body, upload))[RestaurantIdForbiddenRule] == 2
  {
    var fa := FailingRules(FieldRules(), body, {}, upload);
    var fi := FailingRules(ImageRules(), body, {}, upload);
    UpdateErrorsSplit(body, upload);
    FailingCount(FieldRules(), body, {}, upload, RestaurantIdForbiddenRule);
    FailingCount(ImageRules(), body, {}, upload, RestaurantIdForbiddenRule);
    ReportedAtTwoPlaces(fa, fi, RestaurantIdForbiddenRule);
  }

  /** With a restaurantId sent, update reports the field errors, the restaurantId, the image errors and the restaurantId again. */
  lemma UpdateErrorsSplit(body: ProductBody, upload: Upload)
    requires Exists(body.restaurantId)
    ensures UpdateErrors(body, upload) ==
              FailingRules(FieldRules(), body, {}, upload)
              + ([RestaurantIdForbiddenRule] + (FailingRules(ImageRules(), body, {}, upload) + [RestaurantIdForbiddenRule]))
  {
    var a, images, r := FieldRules(), ImageRules(), [RestaurantIdForbiddenRule];
    assert UpdateChain() == a + (r + (images + r));
    FailingAppend(a, r + (images + r), body, {}, upload);
    FailingAppend(r, images + r, body, {}, upload);
    FailingAppend(images, r, body, {}, upload);
    assert r[1..] == [];
  }

  /** A rule listed once between and once after failure lists that do not hold it is reported exactly twice. */
  lemma ReportedAtTwoPlaces(fa: seq<Rule>, fi: seq<Rule>, x: Rule)
    requires multiset(fa)[x] == 0 && multiset(fi)[x] == 0
    ensures var e := fa + ([x] + (fi + [x]));
            && (exists i, j :: 0 <= i < j < |e| && e[i] == x && e[j] == x)
            && multiset(e)[x] == 2
  {
    var e := fa + ([x] + (fi + [x]));
    assert e[|fa|] == x && e[|fa| + 1 + |fi|] == x;
    assert multiset(e) == multiset(fa) + multiset{x} + multiset(fi) + multiset{x};
  }

  /** A name made of blanks passes the length rule and is stored empty once trimmed. */
  lemma BlankNameAccepted(body: ProductBody, restaurants: set<int>, upload: Upload)
    requires body.name == Text("  ")
    ensures NameRule !in CreateErrors(body, restaurants, upload)
    ensures Trim(body.name.s) == ""
  {
    var s := body.name.s;
    assert forall k :: 0 <= k < |s| ==> IsSpace(s[k]);
    FailingCount(CreateChain(), body, restaurants, upload, NameRule);
  }
}
