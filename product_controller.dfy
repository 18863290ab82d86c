/**
 * Products (controllers/ProductController.php): the role gate of the product
 * list, and product creation, which fills a new product field by field,
 * collects one message per failed check and stores the product only for a
 * valid token and an empty error list.
 *
 * Request values arrive as PHP's filters leave them (FILTER_SANITIZE_SPECIAL_CHARS
 * text, FILTER_VALIDATE_INT / FILTER_VALIDATE_FLOAT numbers, None for false or
 * absent); each then goes through `?: null`. The current year `date('Y')` is an input.
 */
module ProductController {
  import opened Wrappers
  import opened Php
  import opened Records
  import opened Users
  import Jwt

  // Messages of controllers/ProductControllerException.php (lines 16-34).
  const INVALID_CATEGORY := "Invalid category."
  const INVALID_TYPE := "Invalid type."
  const INVALID_NAME := "Invalid name."
  const INVALID_DESCRIPTION := "Invalid description."
  const INVALID_PRICE := "Invalid price."
  const INVALID_STOCK := "Invalid stock."
  const INVALID_GENDER := "Invalid gender."
  const INVALID_RACE := "Invalid race."
  const INVALID_BIRTH := "Invalid year of birth."
  const INVALID_DIMENSION := "Invalid dimensions."
  const INVALID_DIMENSION_UNIT := "Invalid dimensions'unit."
  const INVALID_SPECIFICATION := "Invalid specification name."
  const INVALID_SPECIFICATION_VALUE := "Invalid specification value."
  const INVALID_SPECIFICATION_UNIT := "Invalid specification unit."

  const USER_NOT_ALLOWED := "User non autorisé !"
  const PRODUCTS_LISTED := "Voici la liste de tous les produits"
  const NO_PRODUCT := "Aucun produit trouvé !"
  const TOKEN_INVALID := "Token invalide !"
  const PRODUCT_CREATED := "Produit créé avec succès"
  const PRODUCT_NOT_CREATED := "Impossible de créer produit !"
  const TOKEN_REQUIRED := "Token invalide ! Vous devez être connecté pour pouvoir créer un produit!"

  // ---------------------------------------------------------------------------
  // list (lines 34-64)
  // ---------------------------------------------------------------------------

  datatype ListAnswer =
    | ListCrashed                                 // a TypeError in isValidJWT, or isGranted on a null user or null roles
    | ListDenied                                  // exit('User non autorisé !')
    | Listed(success: bool, message: string, products: seq<ProductRow>)

  /**
   * `ProductController::list` for the logged user `me`, the request's token
   * verdict (line 36, taken before anything else) and the product table.
   */
  function List(me: Option<Principal>, token: Jwt.Verdict, products: seq<ProductRow>): (a: ListAnswer)
    ensures a.ListCrashed? <==> token.Crashed? || me.None? || GrantCrashes(me)
    ensures a.ListDenied? <==> !token.Crashed? && me.Some? && me.value.roles.Some? && !Granted(me, ROLE_USER)
    ensures a.Listed? && a.success <==> Granted(me, ROLE_USER) && token.Accepted? && products != []
    ensures a.Listed? && a.success ==> a.products == products && a.message == PRODUCTS_LISTED
    ensures a.Listed? && !a.success ==> a.products == [] && a.message in {NO_PRODUCT, TOKEN_INVALID}
  {
    if token.Crashed? || me.None? || GrantCrashes(me) then ListCrashed
    else if !Granted(me, ROLE_USER) then ListDenied
    else if token.Accepted? then
      if products != [] then Listed(true, PRODUCTS_LISTED, products) else Listed(false, NO_PRODUCT, [])
    else Listed(false, TOKEN_INVALID, [])
  }

  /**
   * Within one request the logged user exists exactly when the token is
   * accepted, so the list never answers "Token invalide !": without a valid
   * token the request already failed on the null user.
   */
  lemma ListNeverReportsBadToken(me: Option<Principal>, token: Jwt.Verdict, products: seq<ProductRow>)
    requires me.Some? <==> token.Accepted?
    ensures var a := List(me, token, products); !(a.Listed? && a.message == TOKEN_INVALID)
  {
  }

  // ---------------------------------------------------------------------------
  // create (lines 104-212)
  // ---------------------------------------------------------------------------

  /** The values create reads, one per field, in the code's order. */
  datatype ProductInput = ProductInput(
    category: Option<string>,
    productType: Option<string>,
    name: Option<string>,
    description: Option<string>,
    price: Option<real>,
    stock: Option<int>,
    gender: Option<string>,
    species: Option<string>,
    race: Option<string>,
    birth: Option<int>,
    dimensionsMax: Option<real>,
    dimensionsUnit: Option<string>,
    specification: Option<string>,
    specificationValue: Option<real>,
    specificationUnit: Option<string>)

  /** `d` is the text `x` sent when that is truthy, and null otherwise. */
  predicate KeptText(d: Option<string>, x: Option<string>) {
    (d.Some? <==> Present(x)) && (d.Some? ==> d == x)
  }

  /** `d` is the integer `x` sent when that is not 0, and null otherwise. */
  predicate KeptInt(d: Option<int>, x: Option<int>) {
    (d.Some? <==> x.Some? && x.value != 0) && (d.Some? ==> d == x)
  }

  /** `d` is the number `x` sent when that is not 0.0, and null otherwise. */
  predicate KeptReal(d: Option<real>, x: Option<real>) {
    (d.Some? <==> x.Some? && x.value != 0.0) && (d.Some? ==> d == x)
  }

  /** Every value after `?: null`: what create writes on the product. */
  function Drafted(i: ProductInput): (d: ProductInput)
    ensures KeptText(d.category, i.category) && KeptText(d.productType, i.productType)
    ensures KeptText(d.name, i.name) && KeptText(d.description, i.description)
    ensures KeptReal(d.price, i.price) && KeptInt(d.stock, i.stock)
    ensures KeptText(d.gender, i.gender) && KeptText(d.species, i.species) && KeptText(d.race, i.race)
    ensures KeptInt(d.birth, i.birth) && KeptReal(d.dimensionsMax, i.dimensionsMax)
    ensures KeptText(d.dimensionsUnit, i.dimensionsUnit) && KeptText(d.specification, i.specification)
    ensures KeptReal(d.specificationValue, i.specificationValue) && KeptText(d.specificationUnit, i.specificationUnit)
  {
    ProductInput(OrNull(i.category), OrNull(i.productType), OrNull(i.name), OrNull(i.description),
      OrNullReal(i.price), OrNullInt(i.stock), OrNull(i.gender), OrNull(i.species), OrNull(i.race),
      OrNullInt(i.birth), OrNullReal(i.dimensionsMax), OrNull(i.dimensionsUnit), OrNull(i.specification),
      OrNullReal(i.specificationValue), OrNull(i.specificationUnit))
  }

  /** Lines 111-124: the text fields category, type, name and description. */
  function TextErrors(d: ProductInput): seq<string> {
    Flag(!Present(d.category) || |d.category.value| > 50, INVALID_CATEGORY)
    + Flag(!Present(d.productType) || |d.productType.value| > 100, INVALID_TYPE)
    + Flag(!Present(d.name) || |d.name.value| > 255, INVALID_NAME)
    + Flag(!Present(d.description), INVALID_DESCRIPTION)
  }

  /** Lines 127-138: price, stock and gender. */
  function OfferErrors(d: ProductInput): seq<string> {
    Flag(d.price.None? || d.price.value == 0.0 || d.price.value <= 0.0 || d.price.value > 10000.0, INVALID_PRICE)
    + Flag(!IntBool(d.stock) || d.stock.value < 0, INVALID_STOCK)
    + Flag(Present(d.gender) && GenderRejected(d.gender.value), INVALID_GENDER)
  }

  /** Line 136: `$g !== "f" || $g !== "m" || mb_strlen($g) > 1`; no string equals both, so it always holds. */
  predicate GenderRejected(g: string) {
    g != "f" || g != "m" || |g| > 1
  }

  /** Lines 111-138 on the drafted values: category to gender. */
  function IdentityErrors(d: ProductInput): seq<string> {
    TextErrors(d) + OfferErrors(d)
  }

  /**
   * Lines 141-142: the species check names ProductControllerException::INVALID_SPECIES,
   * which is not defined, so when it fails the request ends with an Error.
   */
  predicate SpeciesCrashes(d: ProductInput) {
    !Present(d.species) || |d.species.value| > 200
  }

  /** Lines 145-160: race, birth year and maximal dimension. */
  function OriginErrors(d: ProductInput, currentYear: int): seq<string> {
    Flag(Present(d.race) && |d.race.value| > 200, INVALID_RACE)
    + Flag(IntBool(d.birth) && (d.birth.value < 2010 || d.birth.value > currentYear), INVALID_BIRTH)
    + Flag(d.dimensionsMax.None? || d.dimensionsMax.value == 0.0 || d.dimensionsMax.value <= 0.0
           || d.dimensionsMax.value > 10000.0, INVALID_DIMENSION)
  }

  /** Lines 163-176: dimensions unit and the specification. */
  function SpecificationErrors(d: ProductInput): seq<string> {
    Flag(!Present(d.dimensionsUnit) || |d.dimensionsUnit.value| > 10, INVALID_DIMENSION_UNIT)
    + Flag(!Present(d.specification) || |d.specification.value| > 50, INVALID_SPECIFICATION)
    + Flag(d.specificationValue.Some? && d.specificationValue.value != 0.0 && d.specificationValue.value <= 0.0,
           INVALID_SPECIFICATION_VALUE)
    + Flag(!Present(d.specificationUnit) || |d.specificationUnit.value| > 3, INVALID_SPECIFICATION_UNIT)
  }

  /** Lines 145-176 on the drafted values: race to specification unit. */
  function DetailErrors(d: ProductInput, currentYear: int): seq<string> {
    OriginErrors(d, currentYear) + SpecificationErrors(d)
  }

  /** The whole validation: None when the species check ends the request, else the messages in field order. */
  function ProductErrors(input: ProductInput, currentYear: int): (r: Option<seq<string>>)
    ensures r.None? <==> !Present(input.species) || |input.species.value| > 200
  {
    var d := Drafted(input);
    if SpeciesCrashes(d) then None else Some(IdentityErrors(d) + DetailErrors(d, currentYear))
  }

  /** Any gender given, "f" and "m" included, is reported invalid; an absent one is not. */
  lemma GenderAlwaysRejected(input: ProductInput)
    ensures INVALID_GENDER in IdentityErrors(Drafted(input)) <==> Present(input.gender)
  {
  }

  /**
   * A product passes validation exactly when the species check does not end
   * the request and: category (at most 50), type (at most 100), name (at most
   * 255) and description are given; 0 < price <= 10000; the stock is positive
   * (a stock of 0 is refused); no gender is given; the race, when given, has at
   * most 200 characters; a given non-zero birth year lies in 2010..currentYear;
   * 0 < dimensionsMax <= 10000; the dimensions unit (at most 10), the
   * specification (at most 50) and its unit (at most 3) are given; and a given
   * specification value is positive.
   */
  lemma ProductAccepted(input: ProductInput, currentYear: int)
    ensures ProductErrors(input, currentYear) == Some([]) <==>
      && !SpeciesCrashes(Drafted(input))
      && Present(input.category) && |input.category.value| <= 50
      && Present(input.productType) && |input.productType.value| <= 100
      && Present(input.name) && |input.name.value| <= 255
      && Present(input.description)
      && input.price.Some? && 0.0 < input.price.value <= 10000.0
      && input.stock.Some? && input.stock.value > 0
      && !Present(input.gender)
      && (Present(input.race) ==> |input.race.value| <= 200)
      && (input.birth.Some? && input.birth.value != 0 ==> 2010 <= input.birth.value <= currentYear)
      && input.dimensionsMax.Some? && 0.0 < input.dimensionsMax.value <= 10000.0
      && Present(input.dimensionsUnit) && |input.dimensionsUnit.value| <= 10
      && Present(input.specification) && |input.specification.value| <= 50
      && (input.specificationValue.Some? ==> input.specificationValue.value >= 0.0)
      && Present(input.specificationUnit) && |input.specificationUnit.value| <= 3
  {
  }

  /** A stock of 0 or below is always reported. */
  lemma StockMustBePositive(input: ProductInput)
    requires input.stock.Some? && input.stock.value <= 0
    ensures INVALID_STOCK in IdentityErrors(Drafted(input))
  {
  }

  /** The birth year is checked only when given and non-zero. */
  lemma BirthCheckedOnlyWhenGiven(input: ProductInput, currentYear: int)
    ensures INVALID_BIRTH in DetailErrors(Drafted(input), currentYear) <==>
      input.birth.Some? && input.birth.value != 0 && (input.birth.value < 2010 || input.birth.value > currentYear)
  {
  }

  /** The product object create fills (entities/Product.php's fields that create writes). */
  class Product {
    var idAuthor: Option<int>
    var category: Option<string>
    var productType: Option<string>
    var name: Option<string>
    var description: Option<string>
    var price: Option<real>
    var stock: Option<int>
    var gender: Option<string>
    var species: Option<string>
    var race: Option<string>
    var birth: Option<int>
    var dimensionsMax: Option<real>
    var dimensionsUnit: Option<string>
    var specification: Option<string>
    var specificationValue: Option<real>
    var specificationUnit: Option<string>

    /** `new Product()`: every property null. */
    constructor()
      ensures idAuthor.None? && Values() == ProductInput(None, None, None, None, None, None, None, None,
        None, None, None, None, None, None, None)
    {
      idAuthor := None;
      category := None;
      productType := None;
      name := None;
      description := None;
      price := None;
      stock := None;
      gender := None;
      species := None;
      race := None;
      birth := None;
      dimensionsMax := None;
      dimensionsUnit := None;
      specification := None;
      specificationValue := None;
      specificationUnit := None;
    }

    /** The validated fields of the product. */
    function Values(): ProductInput
      reads this
    {
      ProductInput(category, productType, name, description, price, stock, gender, species, race, birth,
        dimensionsMax, dimensionsUnit, specification, specificationValue, specificationUnit)
    }
  }

  /** Lines 110-138 on the product: category to gender. */
  method FillIdentity(p: Product, input: ProductInput) returns (errors: seq<string>)
    modifies p`category, p`productType, p`name, p`description, p`price, p`stock, p`gender
    ensures var d := Drafted(input);
      && p.category == d.category && p.productType == d.productType && p.name == d.name
      && p.description == d.description && p.price == d.price && p.stock == d.stock && p.gender == d.gender
      && errors == IdentityErrors(d)
  {
    var text := FillText(p, input);
    var offer := FillOffer(p, input);
    errors := text + offer;
  }

  /** Lines 110-124: category, type, name and description. */
  method FillText(p: Product, input: ProductInput) returns (errors: seq<string>)
    modifies p`category, p`productType, p`name, p`description
    ensures var d := Drafted(input);
      && p.category == d.category && p.productType == d.productType && p.name == d.name
      && p.description == d.description
      && errors == TextErrors(d)
  {
    ghost var d := Drafted(input);
    errors := [];
    var category := OrNull(input.category);
    p.category := category;
    if !Present(category) || |category.value| > 50 {
      errors := errors + [INVALID_CATEGORY];
    }
    ghost var e1 := Flag(!Present(d.category) || |d.category.value| > 50, INVALID_CATEGORY);
    assert errors == e1;
    var productType := OrNull(input.productType);
    p.productType := productType;
    if !Present(productType) || |productType.value| > 100 {
      errors := errors + [INVALID_TYPE];
    }
    ghost var e2 := e1 + Flag(!Present(d.productType) || |d.productType.value| > 100, INVALID_TYPE);
    assert errors == e2;
    var name := OrNull(input.name);
    p.name := name;
    if !Present(name) || |name.value| > 255 {
      errors := errors + [INVALID_NAME];
    }
    ghost var e3 := e2 + Flag(!Present(d.name) || |d.name.value| > 255, INVALID_NAME);
    assert errors == e3;
    var description := OrNull(input.description);
    p.description := description;
    if !Present(description) {
      errors := errors + [INVALID_DESCRIPTION];
    }
  }

  /** Lines 126-138: price, stock and gender. */
  method FillOffer(p: Product, input: ProductInput) returns (errors: seq<string>)
    modifies p`price, p`stock, p`gender
    ensures var d := Drafted(input);
      && p.price == d.price && p.stock == d.stock && p.gender == d.gender
      && errors == OfferErrors(d)
  {
    ghost var d := Drafted(input);
    errors := [];
    p.price := OrNullReal(input.price);
    if p.price.None? || p.price.value == 0.0 || p.price.value <= 0.0 || p.price.value > 10000.0 {
      errors := errors + [INVALID_PRICE];
    }
    ghost var e1 := Flag(d.price.None? || d.price.value == 0.0 || d.price.value <= 0.0 || d.price.value > 10000.0, INVALID_PRICE);
    assert errors == e1;
    p.stock := OrNullInt(input.stock);
    if !IntBool(p.stock) || p.stock.value < 0 {
      errors := errors + [INVALID_STOCK];
    }
    ghost var e2 := e1 + Flag(!IntBool(d.stock) || d.stock.value < 0, INVALID_STOCK);
    assert errors == e2;
    p.gender := OrNull(input.gender);
    if Present(p.gender) {
      if GenderRejected(p.gender.value) {
        errors := errors + [INVALID_GENDER];
      }
    }
  }

  /** Lines 144-176 on the product: race to specification unit. */
  method FillDetails(p: Product, input: ProductInput, currentYear: int) returns (errors: seq<string>)
    modifies p`race, p`birth, p`dimensionsMax, p`dimensionsUnit, p`specification, p`specificationValue,
      p`specificationUnit
    ensures var d := Drafted(input);
      && p.race == d.race && p.birth == d.birth && p.dimensionsMax == d.dimensionsMax
      && p.dimensionsUnit == d.dimensionsUnit && p.specification == d.specification
      && p.specificationValue == d.specificationValue && p.specificationUnit == d.specificationUnit
      && errors == DetailErrors(d, currentYear)
  {
    var origin := FillOrigin(p, input, currentYear);
    var specification := FillSpecification(p, input);
    errors := origin + specification;
  }

  /** Lines 144-160: race, birth year and maximal dimension. */
  method FillOrigin(p: Product, input: ProductInput, currentYear: int) returns (errors: seq<string>)
    modifies p`race, p`birth, p`dimensionsMax
    ensures var d := Drafted(input);
      && p.race == d.race && p.birth == d.birth && p.dimensionsMax == d.dimensionsMax
      && errors == OriginErrors(d, currentYear)
  {
    ghost var d := Drafted(input);
    errors := [];
    var race := OrNull(input.race);
    p.race := race;
    if Present(race) && |race.value| > 200 {
      errors := errors + [INVALID_RACE];
    }
    ghost var e1 := Flag(Present(d.race) && |d.race.value| > 200, INVALID_RACE);
    assert errors == e1;
    var birth := OrNullInt(input.birth);
    p.birth := birth;
    if IntBool(birth) {
      if birth.value < 2010 || birth.value > currentYear {
        errors := errors + [INVALID_BIRTH];
      }
    }
    ghost var e2 := e1 + Flag(IntBool(d.birth) && (d.birth.value < 2010 || d.birth.value > currentYear), INVALID_BIRTH);
    assert errors == e2;
    var dimensionsMax := OrNullReal(input.dimensionsMax);
    p.dimensionsMax := dimensionsMax;
    if dimensionsMax.None? || dimensionsMax.value == 0.0 || dimensionsMax.value <= 0.0 || dimensionsMax.value > 10000.0 {
      errors := errors + [INVALID_DIMENSION];
    }
  }

  /** Lines 162-176: dimensions unit and the specification. */
  method FillSpecification(p: Product, input: ProductInput) returns (errors: seq<string>)
    modifies p`dimensionsUnit, p`specification, p`specificationValue, p`specificationUnit
    ensures var d := Drafted(input);
      && p.dimensionsUnit == d.dimensionsUnit && p.specification == d.specification
      && p.specificationValue == d.specificationValue && p.specificationUnit == d.specificationUnit
      && errors == SpecificationErrors(d)
  {
    ghost var d := Drafted(input);
    errors := [];
    var dimensionsUnit := OrNull(input.dimensionsUnit);
    p.dimensionsUnit := dimensionsUnit;
    if !Present(dimensionsUnit) || |dimensionsUnit.value| > 10 {
      errors := errors + [INVALID_DIMENSION_UNIT];
    }
    ghost var e1 := Flag(!Present(d.dimensionsUnit) || |d.dimensionsUnit.value| > 10, INVALID_DIMENSION_UNIT);
    assert errors == e1;
    var specification := OrNull(input.specification);
    p.specification := specification;
    if !Present(specification) || |specification.value| > 50 {
      errors := errors + [INVALID_SPECIFICATION];
    }
    ghost var e2 := e1 + Flag(!Present(d.specification) || |d.specification.value| > 50, INVALID_SPECIFICATION);
    assert errors == e2;
    var specificationValue := OrNullReal(input.specificationValue);
    p.specificationValue := specificationValue;
    if specificationValue.Some? && specificationValue.value != 0.0 && specificationValue.value <= 0.0 {
      errors := errors + [INVALID_SPECIFICATION_VALUE];
    }
    ghost var e3 := e2 + Flag(d.specificationValue.Some? && d.specificationValue.value != 0.0 && d.specificationValue.value <= 0.0,
                              INVALID_SPECIFICATION_VALUE);
    assert errors == e3;
    var specificationUnit := OrNull(input.specificationUnit);
    p.specificationUnit := specificationUnit;
    if !Present(specificationUnit) || |specificationUnit.value| > 3 {
      errors := errors + [INVALID_SPECIFICATION_UNIT];
    }
  }

  /**
   * Line 190: `$product->idAuthor = $payload['user_id']` into an `?int`
   * property under strict types. None when that is a TypeError (a text claim);
   * a missing claim reads as null.
   */
  function AuthorClaim(payload: Jwt.Claims): (r: Option<Option<int>>)
    ensures r.None? <==> "user_id" in payload && payload["user_id"].Text?
    ensures r == Some(None) <==> "user_id" !in payload
    ensures r.Some? && r.value.Some? ==> payload["user_id"] == Jwt.Int(r.value.value)
  {
    if "user_id" !in payload then Some(None)
    else match payload["user_id"]
      case Int(k) => Some(Some(k))
      case Text(_) => None
  }

  /** What the token gives the product (lines 185-190). */
  datatype Authorship =
    | NoToken                  // isValidJWT returned false
    | Broken                   // a TypeError: inside isValidJWT, from getPayload, or from the claim's type
    | Author(id: Option<int>)  // the idAuthor written on the product

  function TokenAuthor(n: Jwt.Natives, token: Jwt.Verdict): Authorship {
    match token
    case Refused => NoToken
    case Crashed => Broken
    case Accepted(t) =>
      var payload := Jwt.GetPayload(n, t);
      if payload.None? then Broken
      else match AuthorClaim(payload.value)
        case None => Broken
        case Some(id) => Author(id)
  }

  /**
   * Lines 110-176 on a new product: every field is written and checked in
   * order; a missing or over-long species ends the request (None).
   */
  method Draft(input: ProductInput, currentYear: int) returns (p: Product, errors: Option<seq<string>>)
    ensures fresh(p)
    ensures errors == ProductErrors(input, currentYear)
    ensures errors.Some? ==> p.Values() == Drafted(input)
  {
    p := new Product();
    var identity := FillIdentity(p, input);
    p.species := OrNull(input.species);
    if !Present(p.species) || |p.species.value| > 200 {
      return p, None;
    }
    var details := FillDetails(p, input, currentYear);
    assert p.Values() == Drafted(input);
    errors := Some(identity + details);
  }

  datatype CreateAnswer =
    | CreateCrashed                                 // an uncaught Error, or persist throwing
    | TokenMissing                                  // "Token invalide ! Vous devez être connecté ..."
    | Rejected(errors: seq<string>, product: Product)
    | Stored(product: Product)

  /**
   * `ProductController::create`. The checks run first, then the token is
   * looked at: a valid one gives the product its author, and the product is
   * stored exactly when there is no error. `persistThrows`: the write of
   * line 193 throws.
   */
  method Create(input: ProductInput, currentYear: int, n: Jwt.Natives, token: Jwt.Verdict, persistThrows: bool)
    returns (answer: CreateAnswer)
    ensures answer.CreateCrashed? <==>
      || ProductErrors(input, currentYear).None? || TokenAuthor(n, token).Broken?
      || (ProductErrors(input, currentYear) == Some([]) && TokenAuthor(n, token).Author? && persistThrows)
    ensures answer.TokenMissing? <==> ProductErrors(input, currentYear).Some? && TokenAuthor(n, token).NoToken?
    ensures answer.Stored? <==>
      ProductErrors(input, currentYear) == Some([]) && TokenAuthor(n, token).Author? && !persistThrows
    ensures answer.Rejected? ==> Some(answer.errors) == ProductErrors(input, currentYear) && answer.errors != []
    ensures answer.Stored? || answer.Rejected? ==>
      && fresh(answer.product) && answer.product.Values() == Drafted(input)
      && answer.product.idAuthor == TokenAuthor(n, token).id
  {
    var p, checked := Draft(input, currentYear);
    if checked.None? {
      return CreateCrashed;
    }
    var errors := checked.value;
    if token.Crashed? {
      return CreateCrashed;
    }
    if token.Refused? {
      return TokenMissing;
    }
    var payload := Jwt.GetPayload(n, token.token);
    if payload.None? {
      return CreateCrashed;
    }
    var author := AuthorClaim(payload.value);
    if author.None? {
      return CreateCrashed;
    }
    assert TokenAuthor(n, token) == Author(author.value);
    p.idAuthor := author.value;
    if errors == [] && persistThrows {
      answer := CreateCrashed;
    } else if errors == [] {
      answer := Stored(p);
    } else {
      answer := Rejected(errors, p);
    }
  }

  /** The message create answers with. */
  function CreateMessage(a: CreateAnswer): (m: Option<string>)
    ensures m.None? <==> a.CreateCrashed?
  {
    match a
    case CreateCrashed => None
    case TokenMissing => Some(TOKEN_REQUIRED)
    case Rejected(_, _) => Some(PRODUCT_NOT_CREATED)
    case Stored(_) => Some(PRODUCT_CREATED)
  }
}
