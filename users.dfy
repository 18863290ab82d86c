/**
 * The User entity (entities/User.php): its field validators, the methods that
 * rewrite fields while validating them, secureReturnedUser, and the static
 * logged-user cache behind getLoggedUser and isGranted.
 *
 * The `roles` column holds a JSON list of role names. The model keeps the list
 * itself; json_encode and json_decode of a list of strings are taken as inverse.
 */
module Users {
  import opened Wrappers
  import opened Php
  import opened Records
  import Jwt

  const ROLE_PUBLIC := "ROLE_PUBLIC"
  const ROLE_USER := "ROLE_USER"
  const ROLE_ADMIN := "ROLE_ADMIN"

  /** A typed property that may also have been unset(); reading an unset one is an Error in PHP. */
  datatype Slot<T> = Unset | Null | Has(value: T)

  /**
   * What the controllers see of the logged user: its id and its role list
   * (None: the `roles` property is null or unset).
   */
  datatype Principal = Principal(idUser: Option<int>, roles: Option<seq<string>>)

  /**
   * `$user->isGranted($role)` raises for a logged user whose roles property is
   * null: under strict_types `json_decode(null)` is a TypeError (line 189), and
   * reading an unset property is an Error.
   */
  predicate GrantCrashes(me: Option<Principal>) {
    me.Some? && me.value.roles.None?
  }

  /** `$user->isGranted($role)` answering true, for the logged user `me` (None: nobody is logged in). */
  predicate Granted(me: Option<Principal>, role: string) {
    me.Some? && me.value.roles.Some? && role in me.value.roles.value
  }

  // ---------------------------------------------------------------------------
  // Validators (lines 267-336)
  // ---------------------------------------------------------------------------

  predicate UsernameOk(s: string) { 3 < |s| < 255 }
  predicate LastNameOk(s: string) { 2 < |s| < 255 }
  predicate FirstNameOk(s: string) { 2 < |s| < 200 }
  predicate PostMailOk(s: string) { 6 < |s| < 255 }
  predicate PostMailComplementOk(s: string) { 2 < |s| < 255 }
  predicate CityOk(s: string) { |s| < 255 }

  /** `([0-9]{2}){k}` matching all of s. */
  predicate DigitPairs(s: string, k: nat)
    decreases k
  {
    if k == 0 then s == []
    else |s| >= 2 && IsDigit(s[0]) && IsDigit(s[1]) && DigitPairs(s[2..], k - 1)
  }

  /** `0[1-9]([0-9]{2}){4}` matching all of t. */
  predicate MobileBody(t: string) {
    |t| >= 2 && t[0] == '0' && '1' <= t[1] <= '9' && DigitPairs(t[2..], 4)
  }

  /** `preg_match('`^0[1-9]([0-9]{2}){4}$`', $s)`. */
  predicate MobileOk(s: string) {
    AnchoredAtEnd(s, MobileBody)
  }

  /** `[0-9]{4}0` matching all of t. */
  predicate ZipBody(t: string) {
    |t| == 5 && IsDigit(t[0]) && IsDigit(t[1]) && IsDigit(t[2]) && IsDigit(t[3]) && t[4] == '0'
  }

  /** `preg_match('`^[0-9]{4}0$`', $s)`. */
  predicate ZipCodeOk(s: string) {
    AnchoredAtEnd(s, ZipBody)
  }

  lemma {:induction false} DigitPairsLength(s: string, k: nat)
    ensures DigitPairs(s, k) <==> |s| == 2 * k && AllDigits(s)
    decreases k
  {
    if k > 0 && |s| >= 2 {
      DigitPairsLength(s[2..], k - 1);
      if AllDigits(s) {
        assert AllDigits(s[2..]);
      }
      if |s| == 2 * k && IsDigit(s[0]) && IsDigit(s[1]) && AllDigits(s[2..]) {
        assert forall i :: 2 <= i < |s| ==> s[i] == s[2..][i - 2];
      }
    }
  }

  /**
   * On a digits-only string (what isValidMobile leaves in the field) the phone
   * pattern holds exactly of ten digits starting with '0' followed by a non-zero digit.
   */
  lemma MobileMeaning(s: string)
    requires AllDigits(s)
    ensures MobileOk(s) <==> |s| == 10 && s[0] == '0' && s[1] != '0'
  {
    if |s| >= 2 {
      DigitPairsLength(s[2..], 4);
    }
  }

  /**
   * The zip pattern holds of five digits ending in '0' and, because PCRE `$`
   * also matches before a final newline, of those five digits followed by "\n".
   * Both controllers pass the zip code through FILTER_SANITIZE_SPECIAL_CHARS
   * first, which encodes a newline as "&#10;", so the second case does not
   * arise from a request; the sanitiser is not modelled, so the case is kept.
   */
  lemma ZipMeaning(s: string)
    ensures ZipCodeOk(s) <==>
      (|s| == 5 && AllDigits(s) && s[4] == '0') ||
      (|s| == 6 && AllDigits(s[..5]) && s[4] == '0' && s[5] == '\n')
  {
    if |s| == 5 && AllDigits(s) {
      assert IsDigit(s[0]) && IsDigit(s[1]) && IsDigit(s[2]) && IsDigit(s[3]);
    }
    if |s| == 6 && AllDigits(s[..5]) {
      assert s[..5][0] == s[0] && s[..5][1] == s[1] && s[..5][2] == s[2] && s[..5][3] == s[3];
    }
    if ZipBody(s) {
      assert forall i :: 0 <= i < 5 ==> IsDigit(s[i]);
    }
    if |s| == 6 && ZipBody(s[..5]) {
      assert forall i :: 0 <= i < 5 ==> IsDigit(s[..5][i]);
    }
  }

  // ---------------------------------------------------------------------------
  // The entity
  // ---------------------------------------------------------------------------

  class User {
    var idUser: Option<int>
    var roles: Slot<seq<string>>
    var username: Option<string>
    var pwd: Slot<string>
    var email: Option<string>
    var lastName: Option<string>
    var firstName: Option<string>
    var mobile: Option<string>
    var postMail: Option<string>
    var postMailComplement: Option<string>
    var zipCode: Option<string>
    var city: Option<string>

    /** `new User($idUser)` (lines 137-139): every other property starts null. */
    constructor(idUser: Option<int>)
      ensures this.idUser == idUser && roles == Null && pwd == Null
      ensures username == None && email == None && lastName == None && firstName == None
      ensures mobile == None && postMail == None && postMailComplement == None
      ensures zipCode == None && city == None
    {
      this.idUser := idUser;
      roles := Null;
      username := None;
      pwd := Null;
      email := None;
      lastName := None;
      firstName := None;
      mobile := None;
      postMail := None;
      postMailComplement := None;
      zipCode := None;
      city := None;
    }

    /** The id and role list isGranted reads; an unset or null roles property has no list. */
    function AsPrincipal(): (p: Principal)
      reads this
      ensures p.idUser == idUser
      ensures p.roles.Some? <==> roles.Has?
      ensures roles.Has? ==> p.roles.value == roles.value
    {
      Principal(idUser, if roles.Has? then Some(roles.value) else None)
    }

    /** Whether the object holds the columns of `row` (the key aside). */
    predicate Holds(row: UserRow)
      reads this
    {
      && roles == (if row.roles.Some? then Has(row.roles.value) else Null)
      && username == row.username && email == row.email
      && pwd == (if row.pwd.Some? then Has(row.pwd.value) else Null)
      && lastName == row.lastName && firstName == row.firstName && mobile == row.mobile
      && postMail == row.postMail && postMailComplement == row.postMailComplement
      && zipCode == row.zipCode && city == row.city
    }

    /** `hydrate()`: load the row whose primary key is idUser; false when there is none. */
    method Hydrate(db: Db) returns (found: bool)
      modifies this
      ensures found <==> UserById(db, old(idUser)).Some?
      ensures idUser == old(idUser)
      ensures found ==> Holds(UserById(db, old(idUser)).value)
      ensures !found ==> unchanged(this)
    {
      var row := UserById(db, idUser);
      found := row.Some?;
      if found {
        LoadAccount(row.value);
        LoadContact(row.value);
        LoadAddress(row.value);
      }
    }

    /** Hydrate's copy of the account columns. */
    method LoadAccount(r: UserRow)
      modifies this`roles, this`username, this`pwd, this`email
      ensures roles == (if r.roles.Some? then Has(r.roles.value) else Null)
      ensures username == r.username && email == r.email
      ensures pwd == (if r.pwd.Some? then Has(r.pwd.value) else Null)
    {
      roles := if r.roles.Some? then Has(r.roles.value) else Null;
      username := r.username;
      pwd := if r.pwd.Some? then Has(r.pwd.value) else Null;
      email := r.email;
    }

    /** Hydrate's copy of the names and the mobile number. */
    method LoadContact(r: UserRow)
      modifies this`lastName, this`firstName, this`mobile
      ensures lastName == r.lastName && firstName == r.firstName && mobile == r.mobile
    {
      lastName := r.lastName;
      firstName := r.firstName;
      mobile := r.mobile;
    }

    /** Hydrate's copy of the postal address. */
    method LoadAddress(r: UserRow)
      modifies this`postMail, this`postMailComplement, this`zipCode, this`city
      ensures postMail == r.postMail && postMailComplement == r.postMailComplement
      ensures zipCode == r.zipCode && city == r.city
    {
      postMail := r.postMail;
      postMailComplement := r.postMailComplement;
      zipCode := r.zipCode;
      city := r.city;
    }

    /** `isValidUsername()` (lines 267-269); mb_strlen(null) is a TypeError, hence the requires. */
    method IsValidUsername() returns (ok: bool)
      requires username.Some?
      ensures ok <==> 3 < |username.value| < 255
    {
      ok := UsernameOk(username.value);
    }

    /**
     * `isValidEmail()` (lines 275-278): the field is overwritten with what
     * FILTER_VALIDATE_EMAIL (`validate`) makes of it, `?: null`, and then must be
     * non-empty and shorter than 255 characters.
     */
    method IsValidEmail(validate: string -> Option<string>) returns (ok: bool)
      modifies this`email
      ensures email == (if old(email).Some? then OrNull(validate(old(email).value)) else None)
      ensures ok <==> email.Some? && Truthy(email.value) && |email.value| < 255
    {
      email := if email.Some? then OrNull(validate(email.value)) else None;
      ok := email.Some? && Truthy(email.value) && |email.value| < 255 && |email.value| > 0;
    }

    /** `isValidLastName()` (lines 284-286). */
    method IsValidLastName() returns (ok: bool)
      requires lastName.Some?
      ensures ok <==> 2 < |lastName.value| < 255
    {
      ok := LastNameOk(lastName.value);
    }

    /** `isValidFirstName()` (lines 292-294). */
    method IsValidFirstName() returns (ok: bool)
      requires firstName.Some?
      ensures ok <==> 2 < |firstName.value| < 200
    {
      ok := FirstNameOk(firstName.value);
    }

    /**
     * `isValidMobile()` (lines 301-304): the field is overwritten with its digits
     * only, and that must be ten digits, '0' first and a non-zero digit second.
     */
    method IsValidMobile() returns (ok: bool)
      requires mobile.Some?
      modifies this`mobile
      ensures mobile == Some(DigitsOf(old(mobile).value))
      ensures AllDigits(mobile.value)
      ensures ok <==> |mobile.value| == 10 && mobile.value[0] == '0' && mobile.value[1] != '0'
    {
      mobile := Some(DigitsOf(mobile.value));
      ok := MobileOk(mobile.value);
      MobileMeaning(mobile.value);
    }

    /** `isValidPostMail()` (lines 310-312). */
    method IsValidPostMail() returns (ok: bool)
      requires postMail.Some?
      ensures ok <==> 6 < |postMail.value| < 255
    {
      ok := PostMailOk(postMail.value);
    }

    /** `isValidPostMailComplement()` (lines 318-320). */
    method IsValidPostMailComplement() returns (ok: bool)
      requires postMailComplement.Some?
      ensures ok <==> 2 < |postMailComplement.value| < 255
    {
      ok := PostMailComplementOk(postMailComplement.value);
    }

    /** `isValidZipCode()` (lines 326-328). */
    method IsValidZipCode() returns (ok: bool)
      requires zipCode.Some?
      ensures ok <==> ZipCodeOk(zipCode.value)
      ensures ok ==> |zipCode.value| >= 5 && zipCode.value[4] == '0' && AllDigits(zipCode.value[..5])
    {
      ok := ZipCodeOk(zipCode.value);
      ZipMeaning(zipCode.value);
    }

    /** `isValidCity()` (lines 334-336). */
    method IsValidCity() returns (ok: bool)
      requires city.Some?
      ensures ok <==> |city.value| < 255
    {
      ok := CityOk(city.value);
    }

    /** `secureReturnedUser()` (lines 257-261): unset pwd and roles, keep everything else, return $this. */
    method SecureReturnedUser() returns (u: User)
      modifies this`pwd, this`roles
      ensures u == this && pwd == Unset && roles == Unset
      ensures unchanged(this`idUser, this`username, this`email, this`lastName, this`firstName)
      ensures unchanged(this`mobile, this`postMail, this`postMailComplement, this`zipCode, this`city)
    {
      pwd := Unset;
      roles := Unset;
      u := this;
    }
  }

  /** The contact and address details of a user, as both the checkout and the user update write them. */
  datatype Profile = Profile(
    email: Option<string>,
    lastName: Option<string>,
    firstName: Option<string>,
    mobile: Option<string>,
    postMail: Option<string>,
    postMailComplement: Option<string>,
    zipCode: Option<string>,
    city: Option<string>)

  /** The details held by a user object. */
  function ProfileOf(u: User): Profile
    reads u
  {
    Profile(u.email, u.lastName, u.firstName, u.mobile, u.postMail, u.postMailComplement, u.zipCode, u.city)
  }

  /**
   * The values a submitted form leaves on the user (controllers/CommandController.php,
   * lines 164-204, and controllers/UserController.php, lines 320-352), from the
   * request values as the sanitising filters leave them. Every field goes
   * through `?: null`; the email is then run through FILTER_VALIDATE_EMAIL
   * (`validate`), and a truthy mobile number is replaced by its digits.
   */
  function SubmittedProfile(input: Profile, validate: string -> Option<string>): (c: Profile)
    ensures c.email.Some? ==> Present(OrNull(input.email)) && c.email == OrNull(validate(input.email.value))
    ensures c.mobile.Some? <==> Present(input.mobile)
    ensures c.mobile.Some? ==> AllDigits(c.mobile.value) && c.mobile.value == DigitsOf(input.mobile.value)
    ensures c.lastName == OrNull(input.lastName) && c.firstName == OrNull(input.firstName)
    ensures c.postMail == OrNull(input.postMail) && c.postMailComplement == OrNull(input.postMailComplement)
    ensures c.zipCode == OrNull(input.zipCode) && c.city == OrNull(input.city)
  {
    var email := OrNull(input.email);
    var mobile := OrNull(input.mobile);
    Profile(
      if email.Some? then OrNull(validate(email.value)) else None,
      OrNull(input.lastName),
      OrNull(input.firstName),
      if mobile.Some? then Some(DigitsOf(mobile.value)) else None,
      OrNull(input.postMail),
      OrNull(input.postMailComplement),
      OrNull(input.zipCode),
      OrNull(input.city))
  }

  /** The foreach of isGranted (lines 191-193): true as soon as one role equals `role`. */
  method HasRole(roles: seq<string>, role: string) returns (found: bool)
    ensures found <==> role in roles
  {
    var i := 0;
    while i < |roles|
      invariant 0 <= i <= |roles|
      invariant forall j :: 0 <= j < i ==> roles[j] != role
    {
      if roles[i] == role {
        return true;
      }
      i := i + 1;
    }
    return false;
  }

  /** `(int)$payload['user_id']`: an integer claim as is, a text claim by its leading digits, a missing one as 0. */
  function UserIdClaim(payload: Jwt.Claims): (id: int)
    ensures "user_id" in payload && payload["user_id"].Int? ==> id == payload["user_id"].n
    ensures "user_id" !in payload ==> id == 0
    ensures !("user_id" in payload && payload["user_id"].Int?) ==> id >= 0
  {
    if "user_id" !in payload then 0
    else match payload["user_id"]
      case Int(n) => n
      case Text(s) => IntCast(s)
  }

  /** A text claim holding the decimal digits of `k` reads as `k`. */
  lemma UserIdClaimDigits(payload: Jwt.Claims, k: nat)
    requires "user_id" in payload && payload["user_id"] == Jwt.Text(NatToString(k))
    ensures UserIdClaim(payload) == k
  {
    var t := NatToString(k);
    assert LeadingDigits(t) == t;
    DecimalOfNatToString(k);
  }

  /**
   * The request-wide state of User: the static `$loggedUser` cache (line 130),
   * with the request's token source, secret, clock and user table fixed.
   */
  class Session {
    var loggedUser: Option<User>
    const n: Jwt.Natives
    const server: map<string, string>
    const apache: Option<map<string, string>>
    const secret: string
    const now: int
    const db: Db

    /** What `JWT::isValidJWT()` yields for this request. */
    function Token(): Jwt.Verdict {
      Jwt.IsValidJWT(n, server, apache, secret, now)
    }

    constructor(n: Jwt.Natives, server: map<string, string>, apache: Option<map<string, string>>,
                secret: string, now: int, db: Db)
      ensures loggedUser == None
      ensures this.n == n && this.server == server && this.apache == apache
      ensures this.secret == secret && this.now == now && this.db == db
    {
      loggedUser := None;
      this.n := n;
      this.server := server;
      this.apache := apache;
      this.secret := secret;
      this.now := now;
      this.db := db;
    }

    /**
     * `User::getLoggedUser()` (lines 168-179). With an empty cache and a valid
     * token it builds the user named by the token's user_id, hydrates it (kept
     * even when no row is found) and caches it; a cached user is returned as it
     * is, whatever the token says now. A TypeError inside isValidJWT ends the
     * request, a case the requires leaves out.
     */
    method GetLoggedUser() returns (u: Option<User>)
      requires !Token().Crashed?
      modifies this`loggedUser
      ensures u == loggedUser
      ensures old(loggedUser).Some? ==> loggedUser == old(loggedUser)
      ensures old(loggedUser).None? && !Token().Accepted? ==> loggedUser.None?
      ensures old(loggedUser).None? && Token().Accepted? ==>
        && Jwt.GetPayload(n, Token().token).Some?
        && loggedUser.Some? && fresh(loggedUser.value)
        && var id := UserIdClaim(Jwt.GetPayload(n, Token().token).value);
          && loggedUser.value.idUser == Some(id)
          && var row := UserById(db, Some(id));
            loggedUser.value.AsPrincipal() ==
              Principal(Some(id), if row.Some? then row.value.roles else None)
    {
      var token := Token();
      if loggedUser.None? && token.Accepted? {
        var payload := Jwt.GetPayload(n, token.token);
        var user := new User(Some(UserIdClaim(payload.value)));
        var _ := user.Hydrate(db);
        loggedUser := Some(user);
      }
      u := loggedUser;
    }

    /**
     * `$anyUser->isGranted($role)` (lines 186-195): the receiver is not used;
     * the answer is whether `role` is among the logged user's roles, and false
     * when nobody is logged in. None: the logged user's roles property is null
     * or unset, and the call raises.
     */
    method IsGranted(role: string) returns (granted: Option<bool>)
      requires !Token().Crashed?
      modifies this`loggedUser
      ensures old(loggedUser).Some? ==> loggedUser == old(loggedUser)
      ensures old(loggedUser).None? && !Token().Accepted? ==> loggedUser.None?
      ensures old(loggedUser).None? && Token().Accepted? ==> loggedUser.Some? && fresh(loggedUser.value)
      ensures var me := if loggedUser.Some? then Some(loggedUser.value.AsPrincipal()) else None;
        && (granted.None? <==> GrantCrashes(me))
        && (granted == Some(true) <==> Granted(me, role))
    {
      var u := GetLoggedUser();
      if u.Some? {
        var again := GetLoggedUser();
        var user := again.value;
        var roles := user.AsPrincipal().roles;
        if roles.None? {
          return None;
        }
        var found := HasRole(roles.value, role);
        granted := Some(found);
      } else {
        granted := Some(false);
      }
    }
  }

  /** A cached logged user is kept on every later call, even once the token is no longer accepted. */
  method CacheOutlivesToken(s: Session) returns (first: Option<User>, second: Option<User>)
    requires !s.Token().Crashed? && s.loggedUser.Some?
    modifies s`loggedUser
    ensures first == second == old(s.loggedUser)
  {
    first := s.GetLoggedUser();
    second := s.GetLoggedUser();
  }
}
