/**
 * The user resource (controllers/UserController.php): the access rules of its
 * list, show, update and delete handlers, and the two routines that read a
 * submitted form onto a user object and collect the validation errors,
 * `processingUserCreation` and `processingUserUpdate`.
 *
 * The logged user is given as a Principal (None: nobody is logged in);
 * `Router::responseJson` sends its answer and ends the request, so a refused
 * request goes no further.
 */
module UserController {
  import opened Wrappers
  import opened Php
  import opened Records
  import opened Users

  const NOT_ALLOWED := "Vous n'êtes pas autorisé à accéder à cette page."
  const NOT_LOGGED := "Vous devez être connecté pour accéder à cette page."
  const USER_LIST := "Voici la liste des users."
  const USER_SHOWN := "Voici les information du user."
  const UPDATE_FAILED := "L'utilisateur n'a pas pu être mis à jour."
  const UPDATED := "L'utilisateur a bien été mis à jour."
  const DELETED := "L'utilisateur a bien été supprimé"
  const NO_USER := "Aucun User trouvé."
  const INVALID_USERNAME := "Username invalide"
  const INVALID_EMAIL := "Email invalide"
  const INVALID_PWD := "Mot de passe invalide."
  const INVALID_LAST_NAME := "Nom de famille invalide."
  const INVALID_FIRST_NAME := "Prénom invalide."
  const INVALID_MOBILE := "Numéro de téléphone erroné."
  const INVALID_POST_MAIL := "Adresse invalide."
  const INVALID_COMPLEMENT := "Complément d'adresse invalide."
  const INVALID_ZIP := "Code postal invalide."
  const INVALID_CITY := "Commune ou ville trop longue."

  // ---------------------------------------------------------------------------
  // Access (lines 38, 76, 151, 202)
  // ---------------------------------------------------------------------------

  /**
   * The rule of show, update and delete: an admin may reach any user, a holder
   * of ROLE_USER only the user whose id equals its own (`===`: same id, not null).
   */
  predicate OwnerOrAdmin(me: Option<Principal>, idUser: int) {
    (Granted(me, ROLE_USER) && me.value.idUser == Some(idUser)) || Granted(me, ROLE_ADMIN)
  }

  /** Without ROLE_ADMIN, a logged user reaches one user record at most: its own. */
  lemma OwnRecordOnly(me: Option<Principal>, a: int, b: int)
    requires !Granted(me, ROLE_ADMIN)
    ensures OwnerOrAdmin(me, a) && OwnerOrAdmin(me, b) ==> a == b
    ensures OwnerOrAdmin(me, a) ==>
      && me.Some? && me.value.idUser == Some(a)
      && me.value.roles.Some? && ROLE_USER in me.value.roles.value
  {
  }

  /**
   * What `list` answers: the user table for an admin, a refusal for anyone
   * else. `ListCrashed`: isGranted raised on a user whose roles are null.
   */
  datatype ListAnswer =
    | ListCrashed
    | ListAnswer(success: bool, message: string, users: Option<seq<UserRow>>)

  /**
   * `list()` (lines 32-51): `$user?->isGranted("ROLE_ADMIN") ?: false` decides.
   * `users` is the table in the order the query returns it.
   */
  function List(me: Option<Principal>, users: seq<UserRow>): (a: ListAnswer)
    ensures a.ListCrashed? <==> me.Some? && me.value.roles.None?
    ensures a.ListAnswer? ==> (a.success <==> me.Some? && ROLE_ADMIN in me.value.roles.value)
    ensures a.ListAnswer? ==> (a.users.Some? <==> a.success)
    ensures a.ListAnswer? && a.success ==> a.users == Some(users) && a.message == USER_LIST
    ensures a.ListAnswer? && !a.success ==> a.message == NOT_ALLOWED
  {
    if GrantCrashes(me) then ListCrashed
    else if Granted(me, ROLE_ADMIN) then ListAnswer(true, USER_LIST, Some(users))
    else ListAnswer(false, NOT_ALLOWED, None)
  }

  // ---------------------------------------------------------------------------
  // show (lines 61-90)
  // ---------------------------------------------------------------------------

  /** A user as show returns it: every column but the password and the roles, which are unset. */
  datatype PublicUser = PublicUser(
    idUser: int,
    username: Option<string>,
    email: Option<string>,
    lastName: Option<string>,
    firstName: Option<string>,
    mobile: Option<string>,
    postMail: Option<string>,
    postMailComplement: Option<string>,
    zipCode: Option<string>,
    city: Option<string>)

  function Public(row: UserRow): PublicUser {
    PublicUser(row.idUser, row.username, row.email, row.lastName, row.firstName, row.mobile,
               row.postMail, row.postMailComplement, row.zipCode, row.city)
  }

  /**
   * `$results['user']`: never set, set to null (no such user), or set to a user.
   * `ShowCrashed`: isGranted raised on a user whose roles are null.
   */
  datatype ShowAnswer =
    | ShowCrashed
    | ShowAnswer(success: bool, message: string, user: Slot<PublicUser>)

  /**
   * `show()` (lines 61-90): nobody logged in is told to log in; otherwise
   * the owner-or-admin rule decides, and an allowed request gets the stored
   * user, or null when there is none, without password and roles.
   */
  function Show(me: Option<Principal>, db: Db, idUser: int): (a: ShowAnswer)
    ensures a.ShowCrashed? <==> GrantCrashes(me)
    ensures me.None? ==> a == ShowAnswer(false, NOT_LOGGED, Unset)
    ensures me.Some? && a.ShowAnswer? ==> (a.success <==> OwnerOrAdmin(me, idUser))
    ensures a.ShowAnswer? ==> (a.user != Unset <==> a.success)
    ensures a.ShowAnswer? && a.success ==> a.message == USER_SHOWN && (a.user.Has? <==> UserById(db, Some(idUser)).Some?)
    ensures a.ShowAnswer? && a.user.Has? ==>
      a.user.value.idUser == idUser && a.user.value == Public(UserById(db, Some(idUser)).value)
    ensures me.Some? && a.ShowAnswer? && !a.success ==> a.message == NOT_ALLOWED
  {
    if me.None? then ShowAnswer(false, NOT_LOGGED, Unset)
    else if GrantCrashes(me) then ShowCrashed
    else if !OwnerOrAdmin(me, idUser) then ShowAnswer(false, NOT_ALLOWED, Unset)
    else
      var row := UserById(db, Some(idUser));
      ShowAnswer(true, USER_SHOWN, if row.Some? then Has(Public(row.value)) else Null)
  }

  // ---------------------------------------------------------------------------
  // processingUserCreation (lines 290-313)
  // ---------------------------------------------------------------------------

  /** The POST fields the creation reads, as the sanitising filters leave them (None: absent). */
  datatype Registration = Registration(
    username: Option<string>,
    email: Option<string>,
    pwd: Option<string>,
    pwdConfirm: Option<string>)

  /** What isValidEmail leaves in the field when it is called on `email` (None: not called). */
  function ValidatedEmail(email: Option<string>, validate: string -> Option<string>): Option<string> {
    if email.Some? then OrNull(validate(email.value)) else None
  }

  /**
   * Line 304: `!$pwd || mb_strlen($pwd) < 4 || $pwd !== $pwdConfirm || mb_strlen($pwd) > 255`
   * rejects the password; the confirmation is compared as it arrives, without `?: null`.
   */
  predicate PasswordOk(pwd: Option<string>, confirm: Option<string>) {
    Present(pwd) && 4 <= |pwd.value| && confirm == pwd && |pwd.value| <= 255
  }

  /**
   * A password is accepted exactly when it is given, has 4 to 255 characters and
   * equals its confirmation; the truthiness test adds nothing to the length bound.
   */
  lemma PasswordRule(pwd: Option<string>, confirm: Option<string>)
    ensures PasswordOk(OrNull(pwd), confirm) <==>
      pwd.Some? && 4 <= |pwd.value| <= 255 && confirm == pwd
  {
    if pwd.Some? && 4 <= |pwd.value| {
      assert pwd.value != "" && pwd.value != "0" by {
        assert |"0"| == 1;
      }
    }
  }

  /** Lines 296-307: the three checks of the creation form, in the code's order. */
  function CreationErrors(r: Registration, validate: string -> Option<string>): (e: seq<string>)
    ensures |e| <= 3
    ensures forall m :: m in e ==> m in {INVALID_USERNAME, INVALID_EMAIL, INVALID_PWD}
    ensures INVALID_PWD in e <==> !PasswordOk(OrNull(r.pwd), r.pwdConfirm)
  {
    var username := OrNull(r.username);
    var email := ValidatedEmail(OrNull(r.email), validate);
    Flag(!(username.Some? && UsernameOk(username.value)), INVALID_USERNAME)
    + Flag(!(Present(email) && |email.value| < 255), INVALID_EMAIL)
    + Flag(!PasswordOk(OrNull(r.pwd), r.pwdConfirm), INVALID_PWD)
  }

  /**
   * Each creation error is reported exactly when its rule fails, and the
   * username error comes first, the password error last.
   */
  lemma CreationErrorsMeaning(r: Registration, validate: string -> Option<string>)
    ensures var e := CreationErrors(r, validate);
      && |e| <= 3
      && (INVALID_USERNAME in e <==> !(r.username.Some? && 3 < |r.username.value| < 255))
      && (INVALID_EMAIL in e <==> !(Present(r.email) && Present(validate(r.email.value)) && |validate(r.email.value).value| < 255))
      && (INVALID_PWD in e <==> !(r.pwd.Some? && 4 <= |r.pwd.value| <= 255 && r.pwdConfirm == r.pwd))
      && (INVALID_USERNAME in e ==> e[0] == INVALID_USERNAME)
      && (INVALID_PWD in e ==> e[|e| - 1] == INVALID_PWD)
  {
    PasswordRule(r.pwd, r.pwdConfirm);
    if r.username.Some? && 3 < |r.username.value| {
      assert r.username.value != "" && r.username.value != "0" by {
        assert |"0"| == 1;
      }
    }
  }

  /**
   * `processingUserCreation()` (lines 290-313) on a new user: the roles are
   * `["ROLE_USER"]`; username, email and password are read and checked in that
   * order; an accepted password is replaced by its hash (`hash` stands for
   * password_hash), a refused one stays as submitted.
   */
  method ProcessingUserCreation(r: Registration, validate: string -> Option<string>, hash: string -> string)
    returns (user: User, errors: seq<string>)
    ensures fresh(user)
    ensures user.idUser == None && user.roles == Has([ROLE_USER])
    ensures user.username == OrNull(r.username)
    ensures user.email == ValidatedEmail(OrNull(r.email), validate)
    ensures PasswordOk(OrNull(r.pwd), r.pwdConfirm) ==> user.pwd == Has(hash(r.pwd.value))
    ensures !PasswordOk(OrNull(r.pwd), r.pwdConfirm) ==>
      user.pwd == (if OrNull(r.pwd).Some? then Has(r.pwd.value) else Null)
    ensures user.lastName == None && user.firstName == None && user.mobile == None && user.postMail == None
    ensures user.postMailComplement == None && user.zipCode == None && user.city == None
    ensures errors == CreationErrors(r, validate)
  {
    user := new User(None);
    user.roles := Has([ROLE_USER]);
    var identity := TakeIdentity(user, r, validate);
    var password := TakePassword(user, r, hash);
    errors := identity + password;
  }

  /** Lines 298-303: the username, then the email, each read and checked by the entity. */
  method TakeIdentity(user: User, r: Registration, validate: string -> Option<string>) returns (errors: seq<string>)
    modifies user`username, user`email
    ensures user.username == OrNull(r.username)
    ensures user.email == ValidatedEmail(OrNull(r.email), validate)
    ensures errors == Flag(!(user.username.Some? && UsernameOk(user.username.value)), INVALID_USERNAME)
      + Flag(!(Present(user.email) && |user.email.value| < 255), INVALID_EMAIL)
  {
    errors := [];
    user.username := OrNull(r.username);
    var usernameOk := false;
    if Present(user.username) {
      usernameOk := user.IsValidUsername();
    }
    if !usernameOk {
      errors := errors + [INVALID_USERNAME];
    }
    user.email := OrNull(r.email);
    var emailOk := false;
    if Present(user.email) {
      emailOk := user.IsValidEmail(validate);
    }
    if !emailOk {
      errors := errors + [INVALID_EMAIL];
    }
  }

  /** Lines 304-308: the password is kept as sent when refused and replaced by its hash when accepted. */
  method TakePassword(user: User, r: Registration, hash: string -> string) returns (errors: seq<string>)
    modifies user`pwd
    ensures PasswordOk(OrNull(r.pwd), r.pwdConfirm) ==> user.pwd == Has(hash(r.pwd.value))
    ensures !PasswordOk(OrNull(r.pwd), r.pwdConfirm) ==>
      user.pwd == (if OrNull(r.pwd).Some? then Has(r.pwd.value) else Null)
    ensures errors == Flag(!PasswordOk(OrNull(r.pwd), r.pwdConfirm), INVALID_PWD)
  {
    errors := [];
    var pwd := OrNull(r.pwd);
    user.pwd := if pwd.Some? then Has(pwd.value) else Null;
    if !PasswordOk(pwd, r.pwdConfirm) {
      errors := errors + [INVALID_PWD];
    } else {
      user.pwd := Has(hash(pwd.value));
    }
  }

  // ---------------------------------------------------------------------------
  // processingUserUpdate (lines 319-354)
  // ---------------------------------------------------------------------------

  /** Lines 326-337: the email must pass; the other contact fields are checked only when given. */
  function UpdateContactErrors(c: Profile): seq<string> {
    Flag(!(Present(c.email) && |c.email.value| < 255), INVALID_EMAIL)
    + Flag(Present(c.lastName) && !LastNameOk(c.lastName.value), INVALID_LAST_NAME)
    + Flag(Present(c.firstName) && !FirstNameOk(c.firstName.value), INVALID_FIRST_NAME)
    + Flag(c.mobile.Some? && !MobileOk(c.mobile.value), INVALID_MOBILE)
  }

  /** Lines 338-349: the address fields, each checked only when given. */
  function UpdateAddressErrors(c: Profile): seq<string> {
    Flag(Present(c.postMail) && !PostMailOk(c.postMail.value), INVALID_POST_MAIL)
    + Flag(Present(c.postMailComplement) && !PostMailComplementOk(c.postMailComplement.value), INVALID_COMPLEMENT)
    + Flag(Present(c.zipCode) && !ZipCodeOk(c.zipCode.value), INVALID_ZIP)
    + Flag(Present(c.city) && !CityOk(c.city.value), INVALID_CITY)
  }

  /** Lines 326-349: every check on the written values, in the code's order. */
  function UpdateErrors(c: Profile): (e: seq<string>)
    ensures forall m :: m in e ==>
      m in {INVALID_EMAIL, INVALID_LAST_NAME, INVALID_FIRST_NAME, INVALID_MOBILE,
            INVALID_POST_MAIL, INVALID_COMPLEMENT, INVALID_ZIP, INVALID_CITY}
    ensures INVALID_EMAIL in e <==> !(Present(c.email) && |c.email.value| < 255)
  {
    UpdateContactErrors(c) + UpdateAddressErrors(c)
  }

  /**
   * An update is accepted exactly when the validated email is present and
   * shorter than 255 characters, and every other field is either left empty or
   * passes its entity validator.
   */
  lemma UpdateAccepts(input: Profile, validate: string -> Option<string>)
    ensures UpdateErrors(SubmittedProfile(input, validate)) == [] <==>
      && Present(input.email) && Present(validate(input.email.value)) && |validate(input.email.value).value| < 255
      && (Present(input.lastName) ==> 2 < |input.lastName.value| < 255)
      && (Present(input.firstName) ==> 2 < |input.firstName.value| < 200)
      && (Present(input.mobile) ==>
            var d := DigitsOf(input.mobile.value); |d| == 10 && d[0] == '0' && d[1] != '0')
      && (Present(input.postMail) ==> 6 < |input.postMail.value| < 255)
      && (Present(input.postMailComplement) ==> 2 < |input.postMailComplement.value| < 255)
      && (Present(input.zipCode) ==>
            var z := input.zipCode.value;
            (|z| == 5 && AllDigits(z) && z[4] == '0') || (|z| == 6 && AllDigits(z[..5]) && z[4] == '0' && z[5] == '\n'))
      && (Present(input.city) ==> |input.city.value| < 255)
  {
    var c := SubmittedProfile(input, validate);
    if c.mobile.Some? {
      MobileMeaning(c.mobile.value);
    }
    if c.zipCode.Some? {
      ZipMeaning(c.zipCode.value);
    }
  }

  /** A field left empty never produces an error on update, except the email. */
  lemma OmittedFieldsPass(input: Profile, validate: string -> Option<string>)
    requires Present(input.email) && Present(validate(input.email.value)) && |validate(input.email.value).value| < 255
    requires input.lastName == None && input.firstName == None && input.mobile == None && input.postMail == None
    requires input.postMailComplement == None && input.zipCode == None && input.city == None
    ensures UpdateErrors(SubmittedProfile(input, validate)) == []
  {
    UpdateAccepts(input, validate);
  }

  /** A missing email is always refused on update, whatever the other fields hold. */
  lemma EmailMandatory(input: Profile, validate: string -> Option<string>)
    requires !Present(input.email)
    ensures UpdateErrors(SubmittedProfile(input, validate)) != []
    ensures UpdateErrors(SubmittedProfile(input, validate))[0] == INVALID_EMAIL
  {
  }

  /**
   * `processingUserUpdate($user)` (lines 319-354): the eight fields are
   * written from the form and checked one by one, the validators rewriting the
   * email and the mobile number as they go.
   */
  method ProcessingUserUpdate(user: User, input: Profile, validate: string -> Option<string>) returns (errors: seq<string>)
    modifies user`email, user`lastName, user`firstName, user`mobile, user`postMail, user`postMailComplement,
      user`zipCode, user`city
    ensures ProfileOf(user) == SubmittedProfile(input, validate)
    ensures errors == UpdateErrors(SubmittedProfile(input, validate))
  {
    var contact := UpdateContact(user, input, validate);
    var address := UpdateAddress(user, input);
    errors := contact + address;
  }

  /** Lines 326-337: email, names and mobile number. */
  method UpdateContact(user: User, input: Profile, validate: string -> Option<string>) returns (errors: seq<string>)
    modifies user`email, user`lastName, user`firstName, user`mobile
    ensures var c := SubmittedProfile(input, validate);
      && user.email == c.email && user.lastName == c.lastName && user.firstName == c.firstName && user.mobile == c.mobile
      && errors == UpdateContactErrors(c)
  {
    ghost var c := SubmittedProfile(input, validate);
    var email := UpdateEmail(user, input, validate);
    assert user.email == c.email;
    var names := UpdateNames(user, input);
    var mobile := UpdateMobile(user, input);
    assert user.mobile == c.mobile;
    errors := email + names + mobile;
  }

  /** Lines 326-328: the email is mandatory and goes through isValidEmail. */
  method UpdateEmail(user: User, input: Profile, validate: string -> Option<string>) returns (errors: seq<string>)
    modifies user`email
    ensures user.email == (if Present(input.email) then OrNull(validate(input.email.value)) else None)
    ensures errors == Flag(!(Present(user.email) && |user.email.value| < 255), INVALID_EMAIL)
  {
    errors := [];
    user.email := OrNull(input.email);
    var ok := false;
    if Present(user.email) {
      ok := user.IsValidEmail(validate);
    }
    if !ok {
      errors := errors + [INVALID_EMAIL];
    }
  }

  /** Lines 329-334: each name is checked only when given. */
  method UpdateNames(user: User, input: Profile) returns (errors: seq<string>)
    modifies user`lastName, user`firstName
    ensures user.lastName == OrNull(input.lastName) && user.firstName == OrNull(input.firstName)
    ensures errors == Flag(Present(user.lastName) && !LastNameOk(user.lastName.value), INVALID_LAST_NAME)
      + Flag(Present(user.firstName) && !FirstNameOk(user.firstName.value), INVALID_FIRST_NAME)
  {
    errors := [];
    user.lastName := OrNull(input.lastName);
    if Present(user.lastName) {
      var ok := user.IsValidLastName();
      if !ok {
        errors := errors + [INVALID_LAST_NAME];
      }
    }
    user.firstName := OrNull(input.firstName);
    if Present(user.firstName) {
      var ok := user.IsValidFirstName();
      if !ok {
        errors := errors + [INVALID_FIRST_NAME];
      }
    }
  }

  /** Lines 335-337: a given mobile number is rewritten to its digits by isValidMobile, then checked. */
  method UpdateMobile(user: User, input: Profile) returns (errors: seq<string>)
    modifies user`mobile
    ensures user.mobile == (if Present(input.mobile) then Some(DigitsOf(input.mobile.value)) else None)
    ensures errors == Flag(user.mobile.Some? && !MobileOk(user.mobile.value), INVALID_MOBILE)
  {
    errors := [];
    user.mobile := OrNull(input.mobile);
    if Present(user.mobile) {
      var ok := user.IsValidMobile();
      MobileMeaning(user.mobile.value);
      if !ok {
        errors := errors + [INVALID_MOBILE];
      }
    }
  }

  /** Lines 338-349: address, complement, zip code and city. */
  method UpdateAddress(user: User, input: Profile) returns (errors: seq<string>)
    modifies user`postMail, user`postMailComplement, user`zipCode, user`city
    ensures
      && user.postMail == OrNull(input.postMail) && user.postMailComplement == OrNull(input.postMailComplement)
      && user.zipCode == OrNull(input.zipCode) && user.city == OrNull(input.city)
      && errors == UpdateAddressErrors(ProfileOf(user))
  {
    var street := UpdateStreet(user, input);
    var locality := UpdateLocality(user, input);
    errors := street + locality;
  }

  /** Lines 338-343: the address and its complement, each checked only when given. */
  method UpdateStreet(user: User, input: Profile) returns (errors: seq<string>)
    modifies user`postMail, user`postMailComplement
    ensures user.postMail == OrNull(input.postMail) && user.postMailComplement == OrNull(input.postMailComplement)
    ensures errors == Flag(Present(user.postMail) && !PostMailOk(user.postMail.value), INVALID_POST_MAIL)
      + Flag(Present(user.postMailComplement) && !PostMailComplementOk(user.postMailComplement.value), INVALID_COMPLEMENT)
  {
    errors := [];
    user.postMail := OrNull(input.postMail);
    if Present(user.postMail) {
      var ok := user.IsValidPostMail();
      if !ok {
        errors := errors + [INVALID_POST_MAIL];
      }
    }
    user.postMailComplement := OrNull(input.postMailComplement);
    if Present(user.postMailComplement) {
      var ok := user.IsValidPostMailComplement();
      if !ok {
        errors := errors + [INVALID_COMPLEMENT];
      }
    }
  }

  /** Lines 344-349: the zip code and the city, each checked only when given. */
  method UpdateLocality(user: User, input: Profile) returns (errors: seq<string>)
    modifies user`zipCode, user`city
    ensures user.zipCode == OrNull(input.zipCode) && user.city == OrNull(input.city)
    ensures errors == Flag(Present(user.zipCode) && !ZipCodeOk(user.zipCode.value), INVALID_ZIP)
      + Flag(Present(user.city) && !CityOk(user.city.value), INVALID_CITY)
  {
    errors := [];
    user.zipCode := OrNull(input.zipCode);
    if Present(user.zipCode) {
      var ok := user.IsValidZipCode();
      if !ok {
        errors := errors + [INVALID_ZIP];
      }
    }
    user.city := OrNull(input.city);
    if Present(user.city) {
      var ok := user.IsValidCity();
      if !ok {
        errors := errors + [INVALID_CITY];
      }
    }
  }

  // ---------------------------------------------------------------------------
  // update (lines 139-177)
  // ---------------------------------------------------------------------------

  /**
   * What update answers. `UpdateCrashed`: isGranted raised on a user whose
   * roles are null, or no user has the id, and passing null to
   * `processingUserUpdate(User $user)` is a TypeError that ends the request.
   */
  datatype UpdateAnswer =
    | UpdateDenied(message: string)
    | UpdateCrashed
    | Updated(success: bool, message: string, errors: seq<string>)

  /**
   * Lines 139-177 as a value. `persistError` is what `persist()` throws, if it
   * throws (a duplicate username or email): its message becomes the only error.
   */
  function UpdateOutcome(me: Option<Principal>, db: Db, idUser: int, input: Profile,
                         validate: string -> Option<string>, persistError: Option<string>): (a: UpdateAnswer)
    ensures a.UpdateDenied? <==> !GrantCrashes(me) && !OwnerOrAdmin(me, idUser)
    ensures a.UpdateDenied? ==> a.message == (if me.None? then NOT_LOGGED else NOT_ALLOWED)
    ensures a.UpdateCrashed? <==> GrantCrashes(me) || (OwnerOrAdmin(me, idUser) && UserById(db, Some(idUser)).None?)
    ensures a.Updated? ==> (a.success <==> a.errors == [])
    ensures a.Updated? ==> (a.success <==> UpdateErrors(SubmittedProfile(input, validate)) == [] && persistError.None?)
    ensures a.Updated? ==> a.message == (if a.success then UPDATED else UPDATE_FAILED)
    ensures a.Updated? && UpdateErrors(SubmittedProfile(input, validate)) != [] ==>
      a.errors == UpdateErrors(SubmittedProfile(input, validate))
  {
    if me.None? then UpdateDenied(NOT_LOGGED)
    else if GrantCrashes(me) then UpdateCrashed
    else if !OwnerOrAdmin(me, idUser) then UpdateDenied(NOT_ALLOWED)
    else if UserById(db, Some(idUser)).None? then UpdateCrashed
    else
      var fieldErrors := UpdateErrors(SubmittedProfile(input, validate));
      var errors := if fieldErrors == [] && persistError.Some? then [persistError.value] else fieldErrors;
      Updated(errors == [], if errors == [] then UPDATED else UPDATE_FAILED, errors)
  }

  /**
   * `update()` (lines 139-177) on the user object: an allowed request loads
   * the stored user, runs processingUserUpdate on it, persists it when no check
   * failed, and returns it with password and roles unset.
   */
  method Update(me: Option<Principal>, db: Db, idUser: int, input: Profile,
                validate: string -> Option<string>, persistError: Option<string>)
    returns (answer: UpdateAnswer, user: Option<User>)
    ensures answer == UpdateOutcome(me, db, idUser, input, validate, persistError)
    ensures user.Some? <==> answer.Updated?
    ensures user.Some? ==> var u := user.value;
      && fresh(u) && u.idUser == Some(idUser)
      && u.username == UserById(db, Some(idUser)).value.username
      && ProfileOf(u) == SubmittedProfile(input, validate)
      && u.pwd == Unset && u.roles == Unset
  {
    if me.None? {
      return UpdateDenied(NOT_LOGGED), None;
    }
    if GrantCrashes(me) {
      return UpdateCrashed, None;
    }
    if !OwnerOrAdmin(me, idUser) {
      return UpdateDenied(NOT_ALLOWED), None;
    }
    var u := new User(Some(idUser));
    var found := u.Hydrate(db);
    if !found {
      return UpdateCrashed, None;
    }
    var errors := ProcessingUserUpdate(u, input, validate);
    if errors == [] && persistError.Some? {
      errors := [persistError.value];
    }
    var success := errors == [];
    answer := Updated(success, if success then UPDATED else UPDATE_FAILED, errors);
    var secured := u.SecureReturnedUser();
    user := Some(secured);
  }

  // ---------------------------------------------------------------------------
  // delete (lines 187-224)
  // ---------------------------------------------------------------------------

  /**
   * How `remove()` ends: it returns a flag, throws an Error (caught by line
   * 217), or throws an exception that is not an Error, such as a
   * PDOException, which the catch lets through.
   */
  datatype Removal = Returned(ok: bool) | ThrewError | ThrewException

  /**
   * What delete answers; `message` is None when `remove()` threw an Error, which
   * is caught without a message being set. `DeleteCrashed`: the request ended on
   * an uncaught throw (isGranted on null roles, or an exception from `remove()`).
   */
  datatype DeleteAnswer =
    | DeleteCrashed
    | DeleteAnswer(success: bool, message: Option<string>, user: Option<UserRow>)

  /**
   * `delete()` (lines 187-224). `removed` tells how `remove()` ends. A missing
   * user is reported with success still true, as the flag set by the access
   * check is never reset.
   */
  function Delete(me: Option<Principal>, db: Db, idUser: int, removed: Removal): (a: DeleteAnswer)
    ensures a.DeleteCrashed? <==>
      || GrantCrashes(me)
      || (OwnerOrAdmin(me, idUser) && UserById(db, Some(idUser)).Some? && removed.ThrewException?)
    ensures !GrantCrashes(me) && !OwnerOrAdmin(me, idUser) ==>
      a == DeleteAnswer(false, Some(if me.None? then NOT_LOGGED else NOT_ALLOWED), None)
    ensures OwnerOrAdmin(me, idUser) && UserById(db, Some(idUser)).None? ==>
      a == DeleteAnswer(true, Some(NO_USER), None)
    ensures OwnerOrAdmin(me, idUser) && UserById(db, Some(idUser)).Some? && !removed.ThrewException? ==>
      && a.user == UserById(db, Some(idUser))
      && (a.success <==> removed != Returned(false))
      && a.message == (if removed.Returned? then Some(DELETED) else None)
  {
    if me.None? then DeleteAnswer(false, Some(NOT_LOGGED), None)
    else if GrantCrashes(me) then DeleteCrashed
    else if !OwnerOrAdmin(me, idUser) then DeleteAnswer(false, Some(NOT_ALLOWED), None)
    else
      var row := UserById(db, Some(idUser));
      if row.None? then DeleteAnswer(true, Some(NO_USER), None)
      else match removed
        case Returned(ok) => DeleteAnswer(ok, Some(DELETED), row)
        case ThrewError => DeleteAnswer(true, None, row)
        case ThrewException => DeleteCrashed
  }

  /** Deleting an id no user has is answered as a success. */
  lemma MissingUserDeleteSucceeds(me: Option<Principal>, db: Db, idUser: int, removed: Removal)
    requires OwnerOrAdmin(me, idUser) && UserById(db, Some(idUser)).None?
    ensures Delete(me, db, idUser, removed).success
    ensures Delete(me, db, idUser, removed).message == Some(NO_USER)
  {
  }
}
