/**
 * Orders (controllers/CommandController.php): who may see one, creation of a
 * cart (at most one per customer), checkout of a cart, which validates the
 * customer's details, stores them and opens the order, and the purge of stale
 * anonymous carts.
 *
 * The database is a value: `persist` of a new command appends its row and
 * `remove` drops rows. The clock is an input: the two `date()` strings of a
 * request and, for the purge, the whole-day age of each lastChange.
 */
module CommandController {
  import opened Wrappers
  import opened Php
  import opened Records
  import opened Users

  const NOT_LOGGED := "Vous devez être connecté pour accéder à cette page."
  const NOT_ALLOWED := "Vous n'êtes pas autorisé à accéder à cette page."
  const HERE_IS_ORDER := "Voici la commande."
  const HAS_CART := "Création impossible, l'utilisateur a déjà un panier."
  const CART_CREATED := "Le panier a bien été créé."
  const NO_ORDER := "Aucune commande trouvée."
  const INVALID_EMAIL := "Email invalide"
  const INVALID_LAST_NAME := "Nom de famille invalide."
  const INVALID_FIRST_NAME := "Prénom trop long."
  const INVALID_MOBILE := "Numéro de téléphone erroné."
  const INVALID_POST_MAIL := "Adresse incorrecte."
  const INVALID_COMPLEMENT := "Complément d'adresse trop long."
  const INVALID_ZIP := "Code postal invalide."
  const INVALID_CITY := "Commune ou ville incorrecte."
  const USER_EXISTS := "Un utilisateur existe déjà avec cet email, veuillez vous connecter"
  const DUPLICATE_REF := "Doublon de référence."
  const ORDER_OK := "Merci de votre confiance. Votre commande a bien été validée."
  const ORDER_FAILED := "La commande n'a pas pu être validée."
  const CARTS_PURGED := "Les paniers obsolètes ont bien été supprimés."

  /**
   * The success flag and message of a JSON answer, or `Fatal`: an uncaught
   * Error or TypeError ended the request.
   */
  datatype Answer = Fatal | Answer(success: bool, message: string)

  /** `$command?->idCustomer`: null when there is no command. */
  function CustomerOf(command: Option<CommandRow>): Option<int> {
    if command.Some? then command.value.idCustomer else None
  }

  // ---------------------------------------------------------------------------
  // show (lines 69-88)
  // ---------------------------------------------------------------------------

  /**
   * `CommandController::show`: the logged user sees the command when it is an
   * admin, or when it holds ROLE_USER and is the command's customer (strict
   * comparison; a missing command has a null customer). isGranted raises for
   * a logged user whose roles are null.
   */
  function Show(me: Option<Principal>, db: Db, idCommand: int): (a: Answer)
    ensures a.Fatal? <==> GrantCrashes(me)
    ensures me.None? ==> a == Answer(false, NOT_LOGGED)
    ensures Granted(me, ROLE_ADMIN) ==> a == Answer(true, HERE_IS_ORDER)
    ensures a.Answer? && a.success && !Granted(me, ROLE_ADMIN) ==>
      Granted(me, ROLE_USER) && CustomerOf(CommandById(db, Some(idCommand))) == me.value.idUser
    ensures me.Some? && Granted(me, ROLE_USER) && me.value.idUser.Some? ==>
      && a.Answer?
      && (a.success <==> (Granted(me, ROLE_ADMIN) ||
        (CommandById(db, Some(idCommand)).Some? && CommandById(db, Some(idCommand)).value.idCustomer == me.value.idUser)))
    ensures a.Answer? && !a.success ==> a.message in {NOT_LOGGED, NOT_ALLOWED}
  {
    if me.None? then Answer(false, NOT_LOGGED)
    else if GrantCrashes(me) then Fatal
    else if (Granted(me, ROLE_USER) && CustomerOf(CommandById(db, Some(idCommand))) == me.value.idUser) || Granted(me, ROLE_ADMIN) then
      Answer(true, HERE_IS_ORDER)
    else Answer(false, NOT_ALLOWED)
  }

  // ---------------------------------------------------------------------------
  // create (lines 99-128)
  // ---------------------------------------------------------------------------

  /** `User::getCart()` (entities/User.php, lines 245-250): the first cart of the customer; a null id matches no row. */
  function CartOf(db: Db, idUser: Option<int>): (r: Option<CommandRow>)
    ensures r.Some? ==> r.value in db.commands && r.value.idCustomer == idUser && r.value.status == Some("cart")
    ensures idUser.Some? && r.None? ==>
      forall i :: 0 <= i < |db.commands| ==> !(db.commands[i].idCustomer == idUser && db.commands[i].status == Some("cart"))
  {
    if idUser.None? then None
    else FindFirst(db.commands, (c: CommandRow) => c.idCustomer == idUser && c.status == Some("cart"))
  }

  /**
   * What create ends in: a refusal showing the existing cart, the new cart and
   * the database holding it, or an insert that threw (the `persist()` call at
   * line 124 is not guarded by a try, so the request ends there).
   */
  datatype CreateOutcome = AlreadyHasCart(cart: CommandRow) | Created(cart: CommandRow, db: Db) | CreateCrashed

  /**
   * `CommandController::create`: a new command in status 'cart', owned by the
   * logged user if there is one, refused when that user already has a cart.
   * `newId` is the key the insert assigns, `now` is `date('Y-m-d H:i:s')` and
   * `persistThrows` says whether the insert throws.
   */
  function Create(db: Db, me: Option<Principal>, newId: int, now: string, persistThrows: bool): (r: CreateOutcome)
    ensures r.AlreadyHasCart? <==> me.Some? && CartOf(db, me.value.idUser).Some?
    ensures r.CreateCrashed? <==> !(me.Some? && CartOf(db, me.value.idUser).Some?) && persistThrows
    ensures r.AlreadyHasCart? ==> r.cart == CartOf(db, me.value.idUser).value
    ensures r.Created? ==>
      && r.cart.status == Some("cart")
      && r.cart.idCustomer == (if me.Some? then me.value.idUser else None)
      && r.cart.lastChange == Some(now) && r.cart.orderDate.None? && r.cart.ref.None?
      && r.db == db.(commands := db.commands + [r.cart])
  {
    if me.Some? && CartOf(db, me.value.idUser).Some? then AlreadyHasCart(CartOf(db, me.value.idUser).value)
    else if persistThrows then CreateCrashed
    else
      var cart := CommandRow(newId, if me.Some? then me.value.idUser else None, None, None, Some("cart"), Some(now));
      Created(cart, db.(commands := db.commands + [cart]))
  }

  /** No customer has two carts (anonymous carts, with a null customer, are not counted). */
  ghost predicate OneCartEach(db: Db) {
    forall i, j ::
      (0 <= i < j < |db.commands| && db.commands[i].status == Some("cart") && db.commands[j].status == Some("cart")
       && db.commands[i].idCustomer.Some?) ==> db.commands[i].idCustomer != db.commands[j].idCustomer
  }

  /** Creating a cart keeps every customer at one cart at most. */
  lemma CreateKeepsOneCartEach(db: Db, me: Option<Principal>, newId: int, now: string)
    requires OneCartEach(db)
    requires Create(db, me, newId, now, false).Created?
    ensures OneCartEach(Create(db, me, newId, now, false).db)
  {
    var r := Create(db, me, newId, now, false);
    var cs := r.db.commands;
    assert cs == db.commands + [r.cart];
    forall i, j | 0 <= i < j < |cs| && cs[i].status == Some("cart") && cs[j].status == Some("cart") && cs[i].idCustomer.Some?
      ensures cs[i].idCustomer != cs[j].idCustomer
    {
      if j == |db.commands| {
        assert cs[i] == db.commands[i];
      } else {
        assert cs[i] == db.commands[i] && cs[j] == db.commands[j];
      }
    }
  }

  // ---------------------------------------------------------------------------
  // update (lines 140-245)
  // ---------------------------------------------------------------------------

  /** Lines 166-185: the checks on the contact details, in the code's order. */
  function ContactErrors(c: Profile): seq<string> {
    Flag(!Present(c.email) || |c.email.value| > 50, INVALID_EMAIL)
    + Flag(!Present(c.lastName) || |c.lastName.value| > 255 || |c.lastName.value| < 2, INVALID_LAST_NAME)
    + Flag(!Present(c.firstName) || |c.firstName.value| > 200 || |c.firstName.value| < 2, INVALID_FIRST_NAME)
    + Flag(!Present(c.mobile) || !MobileOk(c.mobile.value), INVALID_MOBILE)
  }

  /** Lines 188-206: the checks on the postal address, in the code's order. */
  function AddressErrors(c: Profile): seq<string> {
    Flag(!Present(c.postMail) || |c.postMail.value| > 255 || |c.postMail.value| < 6, INVALID_POST_MAIL)
    + Flag(Present(c.postMailComplement) && |c.postMailComplement.value| > 255, INVALID_COMPLEMENT)
    + Flag(!Present(c.zipCode) || !ZipCodeOk(c.zipCode.value), INVALID_ZIP)
    + Flag(!Present(c.city) || |c.city.value| > 255, INVALID_CITY)
  }

  /** Lines 166-206: every check on the written values. */
  function CheckoutErrors(c: Profile): seq<string> {
    ContactErrors(c) + AddressErrors(c)
  }

  /**
   * Checkout accepts the details exactly when: the validated email is present
   * and at most 50 characters; the last name has 2 to 255 characters and the
   * first name 2 to 200; the digits of the mobile number are ten, starting with
   * '0' then a non-zero digit; the address has 6 to 255 characters and its
   * complement, when given, at most 255; the zip code is five digits ending in
   * '0' (optionally followed by a newline, which the unmodelled sanitiser of
   * line 198 already encodes as "&#10;", so it never reaches the pattern from a
   * request); the city is given and has at most 255 characters.
   */
  lemma CheckoutAccepts(input: Profile, validate: string -> Option<string>)
    ensures CheckoutErrors(SubmittedProfile(input, validate)) == [] <==>
      && Present(input.email) && Present(validate(input.email.value)) && |validate(input.email.value).value| <= 50
      && Present(input.lastName) && 2 <= |input.lastName.value| <= 255
      && Present(input.firstName) && 2 <= |input.firstName.value| <= 200
      && Present(input.mobile)
      && (var d := DigitsOf(input.mobile.value); |d| == 10 && d[0] == '0' && d[1] != '0')
      && Present(input.postMail) && 6 <= |input.postMail.value| <= 255
      && (Present(input.postMailComplement) ==> |input.postMailComplement.value| <= 255)
      && Present(input.zipCode)
      && (var z := input.zipCode.value;
          (|z| == 5 && AllDigits(z) && z[4] == '0') || (|z| == 6 && AllDigits(z[..5]) && z[4] == '0' && z[5] == '\n'))
      && Present(input.city) && |input.city.value| <= 255
  {
    var c := SubmittedProfile(input, validate);
    if c.mobile.Some? {
      MobileMeaning(c.mobile.value);
    }
    if c.zipCode.Some? {
      ZipMeaning(c.zipCode.value);
    }
  }

  /**
   * A witness that the two name rules disagree: checkout takes the two-letter
   * name "Li" as a last or first name, which the entity's own validators
   * (entities/User.php, lines 284-294) refuse.
   */
  lemma NameRulesDisagree()
    ensures !LastNameOk("Li") && !FirstNameOk("Li")
    ensures INVALID_LAST_NAME !in Flag(!Present(Some("Li")) || |"Li"| > 255 || |"Li"| < 2, INVALID_LAST_NAME)
    ensures INVALID_FIRST_NAME !in Flag(!Present(Some("Li")) || |"Li"| > 200 || |"Li"| < 2, INVALID_FIRST_NAME)
  {
  }

  /**
   * Lines 164-206 on the user object: each field is written, then checked, and
   * a failed check appends its message.
   */
  method FillCustomer(user: User, input: Profile, validate: string -> Option<string>) returns (errors: seq<string>)
    modifies user`email, user`lastName, user`firstName, user`mobile, user`postMail, user`postMailComplement,
      user`zipCode, user`city
    ensures ProfileOf(user) == SubmittedProfile(input, validate)
    ensures errors == CheckoutErrors(SubmittedProfile(input, validate))
  {
    var contact := FillContact(user, input, validate);
    var address := FillAddress(user, input);
    errors := contact + address;
  }

  /** Lines 164-185: email, names and mobile number. */
  method FillContact(user: User, input: Profile, validate: string -> Option<string>) returns (errors: seq<string>)
    modifies user`email, user`lastName, user`firstName, user`mobile
    ensures var c := SubmittedProfile(input, validate);
      && user.email == c.email && user.lastName == c.lastName && user.firstName == c.firstName && user.mobile == c.mobile
      && errors == ContactErrors(c)
  {
    ghost var c := SubmittedProfile(input, validate);
    var email := FillEmail(user, input, validate);
    assert user.email == c.email;
    var names := FillNames(user, input);
    var mobile := FillMobile(user, input);
    assert user.mobile == c.mobile;
    errors := email + names + mobile;
  }

  /** Lines 164-167: the email is sanitised, validated and must have at most 50 characters. */
  method FillEmail(user: User, input: Profile, validate: string -> Option<string>) returns (errors: seq<string>)
    modifies user`email
    ensures user.email == (if Present(input.email) then OrNull(validate(input.email.value)) else None)
    ensures errors == Flag(!Present(user.email) || |user.email.value| > 50, INVALID_EMAIL)
  {
    errors := [];
    var email := OrNull(input.email);
    email := if email.Some? then OrNull(validate(email.value)) else None;
    user.email := email;
    if !Present(email) || |email.value| > 50 {
      errors := errors + [INVALID_EMAIL];
    }
  }

  /** Lines 169-175: the last name needs 2 to 255 characters, the first name 2 to 200. */
  method FillNames(user: User, input: Profile) returns (errors: seq<string>)
    modifies user`lastName, user`firstName
    ensures user.lastName == OrNull(input.lastName) && user.firstName == OrNull(input.firstName)
    ensures errors ==
      Flag(!Present(user.lastName) || |user.lastName.value| > 255 || |user.lastName.value| < 2, INVALID_LAST_NAME)
      + Flag(!Present(user.firstName) || |user.firstName.value| > 200 || |user.firstName.value| < 2, INVALID_FIRST_NAME)
  {
    errors := [];
    var lastName := OrNull(input.lastName);
    user.lastName := lastName;
    if !Present(lastName) || |lastName.value| > 255 || |lastName.value| < 2 {
      errors := errors + [INVALID_LAST_NAME];
    }
    var firstName := OrNull(input.firstName);
    user.firstName := firstName;
    if !Present(firstName) || |firstName.value| > 200 || |firstName.value| < 2 {
      errors := errors + [INVALID_FIRST_NAME];
    }
  }

  /** Lines 177-185: a given mobile number is cut down to its digits, then matched. */
  method FillMobile(user: User, input: Profile) returns (errors: seq<string>)
    modifies user`mobile
    ensures user.mobile == (if Present(input.mobile) then Some(DigitsOf(input.mobile.value)) else None)
    ensures errors == Flag(!Present(user.mobile) || !MobileOk(user.mobile.value), INVALID_MOBILE)
  {
    errors := [];
    var mobile := OrNull(input.mobile);
    var isValidMobile := false;
    if Present(mobile) {
      mobile := Some(DigitsOf(mobile.value));
      isValidMobile := MobileOk(mobile.value);
    }
    user.mobile := mobile;
    if !Present(mobile) || !isValidMobile {
      errors := errors + [INVALID_MOBILE];
    }
  }

  /** Lines 187-206: address, complement, zip code and city. */
  method FillAddress(user: User, input: Profile) returns (errors: seq<string>)
    modifies user`postMail, user`postMailComplement, user`zipCode, user`city
    ensures
      && user.postMail == OrNull(input.postMail) && user.postMailComplement == OrNull(input.postMailComplement)
      && user.zipCode == OrNull(input.zipCode) && user.city == OrNull(input.city)
      && errors == AddressErrors(ProfileOf(user))
  {
    var street := FillStreet(user, input);
    var locality := FillLocality(user, input);
    errors := street + locality;
  }

  /** Lines 187-196: the address needs 6 to 255 characters; a given complement at most 255. */
  method FillStreet(user: User, input: Profile) returns (errors: seq<string>)
    modifies user`postMail, user`postMailComplement
    ensures user.postMail == OrNull(input.postMail) && user.postMailComplement == OrNull(input.postMailComplement)
    ensures errors ==
      Flag(!Present(user.postMail) || |user.postMail.value| > 255 || |user.postMail.value| < 6, INVALID_POST_MAIL)
      + Flag(Present(user.postMailComplement) && |user.postMailComplement.value| > 255, INVALID_COMPLEMENT)
  {
    errors := [];
    var postMail := OrNull(input.postMail);
    user.postMail := postMail;
    if !Present(postMail) || |postMail.value| > 255 || |postMail.value| < 6 {
      errors := errors + [INVALID_POST_MAIL];
    }
    var complement := OrNull(input.postMailComplement);
    user.postMailComplement := complement;
    if Present(complement) {
      if |complement.value| > 255 {
        errors := errors + [INVALID_COMPLEMENT];
      }
    }
  }

  /** Lines 198-206: the zip code must match its pattern; the city is needed, at most 255 characters. */
  method FillLocality(user: User, input: Profile) returns (errors: seq<string>)
    modifies user`zipCode, user`city
    ensures user.zipCode == OrNull(input.zipCode) && user.city == OrNull(input.city)
    ensures errors == Flag(!Present(user.zipCode) || !ZipCodeOk(user.zipCode.value), INVALID_ZIP)
      + Flag(!Present(user.city) || |user.city.value| > 255, INVALID_CITY)
  {
    errors := [];
    var zipCode := OrNull(input.zipCode);
    user.zipCode := zipCode;
    var isValidZipCode := false;
    if Present(zipCode) {
      isValidZipCode := ZipCodeOk(zipCode.value);
    }
    if !Present(zipCode) || !isValidZipCode {
      errors := errors + [INVALID_ZIP];
    }
    var city := OrNull(input.city);
    user.city := city;
    if !Present(city) || |city.value| > 255 {
      errors := errors + [INVALID_CITY];
    }
  }

  /** The two `date()` strings of the request: `date('Y-m-d H:i:s')` and `date('YmdHis')`. */
  datatype Clock = Clock(dateTime: string, stamp: string)

  /**
   * How the request's writes behave. A user persist that fails throws a
   * PDOException, an Exception that `catch (Error)` (line 212) does not catch;
   * a command persist that fails is caught by `catch (Exception)` (line 230).
   * `newUserId` is the key an inserted user gets.
   */
  datatype Persistence = Persistence(userPersistThrows: bool, newUserId: int, commandPersistThrows: bool, clock: Clock)

  /** Line 226: `date('YmdHis') . $command->idCustomer`; a null customer adds nothing. */
  function OrderRef(stamp: string, idCustomer: Option<int>): (r: string)
    ensures |r| >= |stamp| && r[..|stamp|] == stamp
    ensures idCustomer.None? <==> r == stamp
  {
    stamp + NullableIntToString(idCustomer)
  }

  /**
   * The reference starts with the fourteen-character stamp and the rest reads
   * back as the customer's id, so two customers ordering in the same second get
   * different references.
   */
  lemma OrderRefRoundTrip(stamp: string, idCustomer: nat)
    requires |stamp| == 14
    ensures var r := OrderRef(stamp, Some(idCustomer));
      && |r| > 14 && r[..14] == stamp && AllDigits(r[14..]) && DecimalValue(r[14..]) == idCustomer
  {
    var r := OrderRef(stamp, Some(idCustomer));
    assert r[14..] == NatToString(idCustomer);
    DecimalOfNatToString(idCustomer);
  }

  lemma OrderRefsDiffer(stamp: string, a: nat, b: nat)
    requires |stamp| == 14 && a != b
    ensures OrderRef(stamp, Some(a)) != OrderRef(stamp, Some(b))
  {
    OrderRefRoundTrip(stamp, a);
    OrderRefRoundTrip(stamp, b);
  }

  /** Lines 222-226: the cart becomes an open order of `idCustomer`, dated now, with its reference. */
  function OpenOrder(command: CommandRow, idCustomer: Option<int>, clock: Clock): (c: CommandRow)
    ensures c.idCommand == command.idCommand && c.idCustomer == idCustomer
    ensures c.status == Some("open") && c.lastChange == c.orderDate == Some(clock.dateTime)
    ensures c.ref == Some(OrderRef(clock.stamp, idCustomer))
  {
    command.(idCustomer := idCustomer, status := Some("open"), orderDate := Some(clock.dateTime),
             lastChange := Some(clock.dateTime), ref := Some(OrderRef(clock.stamp, idCustomer)))
  }

  /** What update ends in. */
  datatype UpdateAnswer =
    | NoOrder                    // no such command
    | UpdateCrashed              // an uncaught exception from the user's persist
    | Answered(success: bool, message: string, errors: seq<string>, order: CommandRow, saved: bool)

  /**
   * Lines 209-244 once the fields are checked. `user` is None when `$user` is
   * null (an anonymous request on a command that is not a cart), and otherwise
   * the user's id after its persist.
   */
  function Conclude(command: CommandRow, user: Option<Option<int>>, fieldErrors: seq<string>, env: Persistence): (a: UpdateAnswer)
    ensures a.UpdateCrashed? <==> fieldErrors == [] && user.Some? && env.userPersistThrows
    ensures a.Answered? && a.success <==>
      fieldErrors == [] && user.Some? && !env.userPersistThrows && !env.commandPersistThrows
    ensures a.Answered? ==> a.saved == a.success && a.message == (if a.success then ORDER_OK else ORDER_FAILED)
    ensures a.Answered? && fieldErrors != [] ==> a.errors == fieldErrors && a.order == command
    ensures a.Answered? && USER_EXISTS in a.errors ==> user.None? || USER_EXISTS in fieldErrors
    ensures a.Answered? && fieldErrors == [] && user.Some? ==> a.order == OpenOrder(command, user.value, env.clock)
    ensures a.Answered? ==> a.success == (a.errors == [])
  {
    if fieldErrors == [] && user.Some? && env.userPersistThrows then UpdateCrashed
    else
      var errors := fieldErrors + Flag(fieldErrors == [] && user.None?, USER_EXISTS);
      if errors == [] then
        var order := OpenOrder(command, user.value, env.clock);
        var errors' := Flag(env.commandPersistThrows, DUPLICATE_REF);
        Answered(errors' == [], if errors' == [] then ORDER_OK else ORDER_FAILED, errors', order, errors' == [])
      else Answered(false, ORDER_FAILED, errors, command, false)
  }

  /** The set holding the logged user object, if any. */
  function Frame(logged: Option<User>): set<User> {
    if logged.Some? then {logged.value} else {}
  }

  /**
   * `CommandController::update($assocParams)` on command `idCommand`. The
   * customer details are read only from a cart, onto the logged user or else
   * onto a new user with role ROLE_PUBLIC; then the user is persisted (an
   * insert gives it an id) and the command opened in its name.
   */
  method Update(db: Db, idCommand: int, logged: Option<User>, input: Profile,
                validate: string -> Option<string>, env: Persistence)
    returns (answer: UpdateAnswer, customer: Option<User>)
    modifies Frame(logged)`email, Frame(logged)`lastName, Frame(logged)`firstName, Frame(logged)`mobile,
      Frame(logged)`postMail, Frame(logged)`postMailComplement, Frame(logged)`zipCode, Frame(logged)`city, Frame(logged)`idUser
    ensures CommandById(db, Some(idCommand)).None? ==> answer == NoOrder && customer.None?
    ensures CommandById(db, Some(idCommand)).Some? ==>
      var command := CommandById(db, Some(idCommand)).value;
      var cart := command.status == Some("cart");
      var fieldErrors := if cart then CheckoutErrors(SubmittedProfile(input, validate)) else [];
      && (cart ==> customer.Some? && ProfileOf(customer.value) == SubmittedProfile(input, validate))
      && (cart && logged.None? ==> fresh(customer.value) && customer.value.roles == Has([ROLE_PUBLIC]))
      && (logged.Some? ==> customer == logged && customer.value.roles == old(logged.value.roles)
                           && customer.value.username == old(logged.value.username)
                           && customer.value.pwd == old(logged.value.pwd))
      && (!cart ==> customer == logged)
      && (customer.Some? && fieldErrors == [] && !env.userPersistThrows ==>
          customer.value.idUser == (if logged.Some? && old(logged.value.idUser).Some?
                                    then old(logged.value.idUser) else Some(env.newUserId)))
      && answer == Conclude(command, if customer.Some? then Some(customer.value.idUser) else None, fieldErrors, env)
    ensures CommandById(db, Some(idCommand)).Some? && CommandById(db, Some(idCommand)).value.status != Some("cart") ==>
      forall u :: u in Frame(logged) && old(u.idUser).Some? ==> unchanged(u)
  {
    var found := CommandById(db, Some(idCommand));
    if found.None? {
      return NoOrder, None;
    }
    var command := found.value;
    var errors;
    customer, errors := TakeCustomer(command, logged, input, validate);
    answer := Save(command, customer, errors, env);
  }

  /**
   * Lines 155-206: on a cart, the details go onto the logged user, or onto a
   * new user with role ROLE_PUBLIC when nobody is logged in; on any other
   * command nothing is read and nobody changes.
   */
  method TakeCustomer(command: CommandRow, logged: Option<User>, input: Profile, validate: string -> Option<string>)
    returns (customer: Option<User>, errors: seq<string>)
    modifies Frame(logged)`email, Frame(logged)`lastName, Frame(logged)`firstName, Frame(logged)`mobile,
      Frame(logged)`postMail, Frame(logged)`postMailComplement, Frame(logged)`zipCode, Frame(logged)`city
    ensures var cart := command.status == Some("cart");
      && (cart ==> customer.Some? && ProfileOf(customer.value) == SubmittedProfile(input, validate)
                   && errors == CheckoutErrors(SubmittedProfile(input, validate)))
      && (cart && logged.None? ==> fresh(customer.value) && customer.value.roles == Has([ROLE_PUBLIC])
                                   && customer.value.idUser == None)
      && (logged.Some? ==> customer == logged && customer.value.roles == old(logged.value.roles)
                           && customer.value.idUser == old(logged.value.idUser)
                           && customer.value.username == old(logged.value.username)
                           && customer.value.pwd == old(logged.value.pwd))
      && (!cart ==> customer == logged && errors == [] && unchanged(Frame(logged)))
  {
    errors := [];
    customer := logged;
    if command.status == Some("cart") {
      if customer.None? {
        var u := new User(None);
        u.roles := Has([ROLE_PUBLIC]);
        customer := Some(u);
      }
      errors := FillCustomer(customer.value, input, validate);
    }
  }

  /**
   * Lines 208-244: without field errors the user is persisted (an insert gives
   * it `env.newUserId`) and the command opened in its name; what is answered
   * is `Conclude`.
   */
  method Save(command: CommandRow, customer: Option<User>, fieldErrors: seq<string>, env: Persistence)
    returns (answer: UpdateAnswer)
    modifies Frame(customer)`idUser
    ensures customer.Some? ==>
      customer.value.idUser == (if fieldErrors == [] && !env.userPersistThrows && old(customer.value.idUser).None?
                                then Some(env.newUserId) else old(customer.value.idUser))
    ensures answer == Conclude(command, if customer.Some? then Some(customer.value.idUser) else None, fieldErrors, env)
  {
    var errors := fieldErrors;
    if errors == [] && customer.Some? {
      if env.userPersistThrows {
        return UpdateCrashed;
      }
      if customer.value.idUser.None? {
        customer.value.idUser := Some(env.newUserId);
      }
    }
    errors := errors + Flag(errors == [] && customer.None?, USER_EXISTS);
    var order := command;
    if errors == [] {
      order := OpenOrder(command, customer.value.idUser, env.clock);
      errors := Flag(env.commandPersistThrows, DUPLICATE_REF);
    }
    var success := errors == [];
    answer := Answered(success, if success then ORDER_OK else ORDER_FAILED, errors, order, success);
  }

  /** A successful checkout stores an open order in the customer's name, dated now, with its reference. */
  lemma CheckoutOpensOrder(command: CommandRow, idUser: Option<int>, env: Persistence)
    requires !env.userPersistThrows && !env.commandPersistThrows
    ensures var a := Conclude(command, Some(idUser), [], env);
      && a.Answered? && a.success && a.saved
      && a.order.status == Some("open") && a.order.idCustomer == idUser
      && a.order.lastChange == a.order.orderDate == Some(env.clock.dateTime)
      && a.order.ref == Some(env.clock.stamp + NullableIntToString(idUser))
  {
  }

  /**
   * The "user already exists" message never comes from a duplicate email: it is
   * the Error of calling persist on a null user, which happens only for an
   * anonymous request on a command that is not a cart.
   */
  lemma UserExistsMeansNoUser(command: CommandRow, user: Option<Option<int>>, env: Persistence)
    requires Conclude(command, user, [], env).Answered?
    ensures USER_EXISTS in Conclude(command, user, [], env).errors <==> user.None?
  {
  }

  // ---------------------------------------------------------------------------
  // delete (lines 256-284)
  // ---------------------------------------------------------------------------

  /** Lines 270-274: a cart with no customer whose last change is more than two whole days old. */
  predicate Stale(c: CommandRow, ageDays: string -> int) {
    !IntBool(c.idCustomer) && c.lastChange.Some? && ageDays(c.lastChange.value) > 2
  }

  /**
   * Line 271: a cart with no customer and a null lastChange, on which
   * `new DateTime(null)` is a TypeError under strict types.
   */
  predicate Undated(c: CommandRow) {
    !IntBool(c.idCustomer) && c.lastChange.None?
  }

  function StaleTest(ageDays: string -> int): CommandRow -> bool {
    (c: CommandRow) => Stale(c, ageDays)
  }

  function CartTest(): CommandRow -> bool {
    (c: CommandRow) => c.status == Some("cart")
  }

  /** The position of the first undated cart, `|carts|` when there is none. */
  function FirstUndated(carts: seq<CommandRow>): (k: nat)
    ensures k <= |carts|
    ensures forall j :: 0 <= j < k ==> !Undated(carts[j])
    ensures k < |carts| ==> Undated(carts[k])
  {
    if carts == [] then 0
    else if Undated(carts[0]) then 0
    else 1 + FirstUndated(carts[1..])
  }

  /**
   * The foreach of lines 268-279: remove each stale cart and count it, until
   * an undated cart ends the request (`crashed`); the carts removed before it
   * stay removed.
   */
  method PurgeStaleCarts(carts: seq<CommandRow>, ageDays: string -> int)
    returns (removed: seq<CommandRow>, nb: nat, crashed: bool)
    ensures crashed <==> FirstUndated(carts) < |carts|
    ensures removed == FindAll(carts[..FirstUndated(carts)], StaleTest(ageDays))
    ensures !crashed ==> removed == FindAll(carts, StaleTest(ageDays))
    ensures nb == |removed|
  {
    removed := [];
    nb := 0;
    var i := 0;
    while i < |carts|
      invariant 0 <= i <= FirstUndated(carts)
      invariant removed == FindAll(carts[..i], StaleTest(ageDays))
      invariant nb == |removed|
    {
      var command := carts[i];
      if !IntBool(command.idCustomer) {
        if command.lastChange.None? {
          return removed, nb, true;
        }
        var interval := ageDays(command.lastChange.value);
        FindAllSnoc(carts[..i], StaleTest(ageDays), carts[i]);
        assert carts[..i + 1] == carts[..i] + [carts[i]];
        if interval > 2 {
          removed := removed + [command];
          nb := nb + 1;
        }
      } else {
        FindAllSnoc(carts[..i], StaleTest(ageDays), carts[i]);
        assert carts[..i + 1] == carts[..i] + [carts[i]];
      }
      i := i + 1;
    }
    assert carts[..i] == carts;
    crashed := false;
  }

  /**
   * `CommandController::delete`: admins only; removes the stale anonymous
   * carts and reports how many. `kept` is the command table afterwards, and
   * `ageDays` the whole-day age of a lastChange. isGranted raises for a logged
   * user whose roles are null.
   */
  method Delete(me: Option<Principal>, db: Db, ageDays: string -> int)
    returns (answer: Answer, nb: nat, kept: seq<CommandRow>)
    ensures me.None? ==> answer == Answer(false, NOT_LOGGED) && nb == 0 && kept == db.commands
    ensures GrantCrashes(me) ==> answer == Fatal && nb == 0 && kept == db.commands
    ensures me.Some? && !GrantCrashes(me) && !Granted(me, ROLE_ADMIN) ==>
      answer == Answer(false, NOT_ALLOWED) && nb == 0 && kept == db.commands
    ensures Granted(me, ROLE_ADMIN) ==>
      var carts := FindAll(db.commands, CartTest());
      var k := FirstUndated(carts);
      && (answer.Fatal? <==> k < |carts|)
      && (answer.Answer? ==> answer == Answer(true, CARTS_PURGED))
      && nb == |FindAll(carts[..k], StaleTest(ageDays))|
      && forall c :: c in kept <==> c in db.commands && !(c in carts[..k] && Stale(c, ageDays))
    ensures Granted(me, ROLE_ADMIN) && answer.Answer? ==>
      forall c :: c in kept <==> c in db.commands && !(c.status == Some("cart") && Stale(c, ageDays))
  {
    if me.None? {
      return Answer(false, NOT_LOGGED), 0, db.commands;
    }
    if GrantCrashes(me) {
      return Fatal, 0, db.commands;
    }
    if !Granted(me, ROLE_ADMIN) {
      return Answer(false, NOT_ALLOWED), 0, db.commands;
    }
    var carts := FindAll(db.commands, CartTest());
    var removed, crashed;
    removed, nb, crashed := PurgeStaleCarts(carts, ageDays);
    ghost var k := FirstUndated(carts);
    kept := FindAll(db.commands, (c: CommandRow) => c !in removed);
    forall c
      ensures c in kept <==> c in db.commands && !(c in carts[..k] && Stale(c, ageDays))
    {
      FindAllMembers(db.commands, (c: CommandRow) => c !in removed, c);
      FindAllMembers(carts[..k], StaleTest(ageDays), c);
    }
    if !crashed {
      assert carts[..k] == carts;
      forall c
        ensures c in carts <==> c in db.commands && c.status == Some("cart")
      {
        FindAllMembers(db.commands, CartTest(), c);
      }
    }
    answer := if crashed then Fatal else Answer(true, CARTS_PURGED);
  }
}
