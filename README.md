# ScalyFriends API core, modelled in Dafny

This project models the core of the ScalyFriends REST API, a PHP shop selling
reptiles and their equipment:

- **The token engine.** It comes in two copies: `peps/jwt/JWT.php`, the live one with `isValidJWT`, and `classes/JWT.php`, an older one with `isValid`.
  - It issues tokens in the shape of the JWS compact serialisation (section 7.1 of RFC 7515). Each segment is base64 "cleaned" into the base64url alphabet of section 5 of RFC 4648.
  - It signs with HMAC-SHA256, keyed by `base64_encode(secret)` rather than the secret itself.
  - It verifies a token by regenerating it with zero validity.
  - It checks a token's shape with a regular expression.
  - It judges expiry as `exp < now`.
  - It extracts a `Bearer` credential from the request headers.
- **The `User` entity.** This covers: its field validators; the validators that rewrite the field they check; `secureReturnedUser`; and the request-wide logged-user cache behind `getLoggedUser` and `isGranted`.
- **The `Line` entity.** This covers its quantity and price rules and its lazily loaded command and product.
- **The four controllers' decision logic:**
  - cart lines: access, quantity merging and clamping to stock, the error list, and line removal;
  - orders: the access rule of `show`; the one-cart-per-customer rule of `create`; the checkout that validates the customer and turns a cart into an open order with its reference; the purge of stale anonymous carts;
  - products: the role gate of `list`; the field validation of `create`, including an always-failing gender test;
  - users: the access rules of `list/show/update/delete`; the creation and update forms.

The modules follow the program's structure:

| file | module | models |
|---|---|---|
| `wrappers.dfy` | `Wrappers` | `Option` |
| `php.dfy` | `Php` | the PHP 8 behaviour the rules depend on: truthiness and `?: null`, `null`/`int` comparison, `trim`, `str_replace`, `preg_replace`/`preg_match` subjects (`$` also matches before a final newline), the `(int)` cast, integer-to-string conversion |
| `records.dfy` | `Records` | database rows and the `findOneBy`/`findAllBy` lookups |
| `jwt.dfy` | `Jwt` | `peps/jwt/JWT.php` |
| `legacy_jwt.dfy` | `LegacyJwt` | `classes/JWT.php` |
| `users.dfy` | `Users` | `entities/User.php` |
| `lines.dfy` | `Lines` | `entities/Line.php` |
| `line_controller.dfy` | `LineController` | `controllers/LineController.php` |
| `command_controller.dfy` | `CommandController` | `controllers/CommandController.php` |
| `product_controller.dfy` | `ProductController` | `controllers/ProductController.php` |
| `user_controller.dfy` | `UserController` | `controllers/UserController.php` |

### How the model is built

- **Pure code.** The token engine and the validators become functions with lemmas.
- **Code that updates fields step by step.** The entities' field-rewriting methods and the controllers' form processing become methods on classes (`User`, `Line`, `Product`, `Session`). Each is proved against a specification function of its inputs.
- **Foreign code becomes parameters.** This covers: JSON, base64 and HMAC; the database; the clock; the request's headers and form values. The built-ins form a `Natives` value of functions. The lemmas that need more of the built-ins than PHP guarantees state it as a precondition (`Conforming`, or a faithful decoding of one segment).
- **The logged user** is a `Principal`: its id, and its role list or none when the roles property is null. It is given to the controllers directly; the `Session` class models how it is obtained and cached.

### Behaviour of the code worth noting

- **A token without an integer `exp` claim.** `isExpired` returns `$payload['exp'] < $now->getTimestamp()` (`peps/jwt/JWT.php:126`). A missing claim reads as `null`, and PHP 8 compares `null` with an integer as booleans, so the test is `false < true` whenever the clock is not 0. Such a token is therefore never accepted while the clock is not 0. `generate` adds `iat` and `exp` only for a positive validity (`peps/jwt/JWT.php:33-40`). So a token generated with validity 0 is never accepted while the clock is not 0, unless the caller's payload carries an integer `exp` of its own.
- **The gender test of product creation.** `$g !== "f" || $g !== "m"` (`controllers/ProductController.php:136`) holds of every string, since no string is both `"f"` and `"m"`. So any non-empty gender is rejected. The model keeps the test as written.
- **The zip code and token patterns accept one trailing newline.** Both end in `$` (`entities/User.php:327`, `peps/jwt/JWT.php:136-140`), and PCRE's `$` also matches before a final `"\n"`.
- **The checkout and the `User` validators disagree on names.** Checkout refuses only names shorter than 2 characters (`controllers/CommandController.php:170`, `:174`). `isValidLastName` and `isValidFirstName` demand more than 2 (`entities/User.php:284-294`). So a two-letter name passes checkout but fails the entity's validator.
- **Checking a cart's customer.** In `processingDataLine` the customer check uses `!=` and comes before the cart-exists check (`controllers/LineController.php:94-97`). So with no cart, a user whose id is 0 passes the access test and is told the id is invalid.
- **A logged user whose roles are null.** `getLoggedUser` keeps the user built from the token's `user_id` even when `hydrate` finds no row (`entities/User.php:172-178`), so its `roles` stay `null`. `isGranted` then passes `null` to `json_decode` (`entities/User.php:189`), a TypeError under strict types. Every handler that asks `isGranted` about such a user ends in an error.
- **A rewrite can reach a line of another command.** On a PUT, `processingDataLine` looks the line up by the `idLine` sent alone (`controllers/LineController.php:110-111`) and continues on that stored line (`:114`). The guards check only the command of the URL (`:94-99`). So a user who owns a cart can rewrite the quantity and price of a line of anyone's command, cart or order, by sending its `idLine`; the line saved keeps its own command.
- **Deleting a missing user.** `UserController::delete` sets `$success` to true in the access check and never resets it (`controllers/UserController.php:202-222`). So when no user has the id, it answers success with "Aucun User trouvé.".

## Model

| member | source | states |
|---|---|---|
| Php.OrNull | controllers/UserController.php:298 | `$x ?: null` keeps a string exactly when it is truthy, i.e. neither "" nor "0" |
| Php.OrNullInt | controllers/ProductController.php:130 | `?: null` on an integer turns 0 into null and keeps every other value |
| Php.OrNullReal | controllers/ProductController.php:126 | `?: null` on a float turns 0.0 into null and keeps every other value |
| Php.TrimKeeps | peps/jwt/JWT.php:153 | `trim` leaves unchanged a string that neither starts nor ends with a whitespace or NUL character |
| Php.Trim | peps/jwt/JWT.php:153 | the trimmed string neither starts nor ends with a whitespace or NUL character |
| Php.ReplaceChar | peps/jwt/JWT.php:48 | `str_replace` of one character leaves no occurrence of it unless the replacement holds it, and adds no other character |
| Php.RemoveAll | peps/jwt/JWT.php:165 | `str_replace($needle, '', $s)` only removes characters: the result is no longer and holds only characters of `s` |
| Php.RemoveAllPrefix | peps/jwt/JWT.php:165 | a leading occurrence of the needle is deleted and the scan goes on right after it |
| Php.RemoveAllAbsent | peps/jwt/JWT.php:165 | a string lacking a character of the needle is returned unchanged |
| Php.DigitsOf | entities/User.php:302 | `preg_replace('`[^0-9]`', '', $s)` yields only digits, is no longer than `s` and keeps an all-digit string as is |
| Php.NatToString | controllers/CommandController.php:226 | the decimal text of a natural number is a non-empty digit string, one digit long exactly below 10 |
| Php.DecimalOfNatToString | controllers/CommandController.php:226 | reading back the decimal text of `n` gives `n` |
| Php.LeadingDigits | entities/User.php:173 | the digit prefix `(int)` reads is the longest prefix of digits |
| Php.IntToString | controllers/CommandController.php:226 | a concatenated integer is non-empty and is all digits exactly when non-negative |
| Php.NullableIntToString | controllers/CommandController.php:226 | a concatenated null is the empty string and nothing else is |
| Records.FindFirst | entities/User.php:247 | `findOneBy` returns a row of the table that matches, and none only when no row matches |
| Records.FindAll | controllers/CommandController.php:266 | `findAllBy` returns matching rows of the table only, in storage order |
| Records.FindAllMembers | controllers/CommandController.php:266 | a row is in the result exactly when it is in the table and matches |
| Records.FindAllSnoc | controllers/CommandController.php:266 | the matches of a table grown by one row are the old matches followed by that row when it matches |
| Jwt.ReplaceCharConcat | peps/jwt/JWT.php:48-49 | replacing a character distributes over concatenation |
| Jwt.CleanIsCharwise | peps/jwt/JWT.php:48-49 | the three successive replacements `+`→`-`, `/`→`_`, `=`→'' amount to mapping each character on its own |
| Jwt.CleanRemovesUnsafe | peps/jwt/JWT.php:48-49 | no cleaned text contains `+`, `/` or `=` |
| Jwt.CleanIsUrlSafe | peps/jwt/JWT.php:56-58 | cleaned base64 is base64url text over letters, digits, `-` and `_` |
| Jwt.CleanNonEmpty | peps/jwt/JWT.php:43-49 | cleaning keeps a non-empty base64 text non-empty |
| Jwt.Explode | peps/jwt/JWT.php:92 | `explode('.')` yields at least one piece and no piece contains a dot |
| Jwt.ImplodeExplode | peps/jwt/JWT.php:92 | joining the exploded pieces with dots gives back the string |
| Jwt.ExplodeWithoutDot | peps/jwt/JWT.php:107 | a string explodes into itself alone exactly when it holds no dot |
| Jwt.ExplodeLeading | peps/jwt/JWT.php:107 | a dot-free first piece is split off before the first dot |
| Jwt.ExplodeThree | peps/jwt/JWT.php:61 | three dot-free segments joined by dots split back into exactly those three |
| Jwt.Stamp | peps/jwt/JWT.php:33-40 | with validity > 0 the payload gains `iat = now` and `exp = now + validity` (so `exp - iat = validity`) and keeps every other claim; otherwise it is unchanged |
| Jwt.SegmentShape | peps/jwt/JWT.php:43-58 | every encoded segment is a non-empty base64url text without a dot |
| Jwt.Generate | peps/jwt/JWT.php:32-64 | with conforming built-ins the token splits on dots into the encoded header, the encoded stamped payload, and the HMAC signature of those two |
| Jwt.JoinedSegments | peps/jwt/JWT.php:61-63 | the three encoded segments hold no dot, so exploding their join gives them back |
| Jwt.GenerateSegments | peps/jwt/JWT.php:32-64 | a token is header, payload and signature joined by dots; it explodes into exactly these three; the signature is HMAC-SHA256 of `header.payload` under `base64_encode(secret)` |
| Jwt.GetHeader | peps/jwt/JWT.php:90-97 | a token without a dot is decoded whole as the header |
| Jwt.GetPayload | peps/jwt/JWT.php:105-112 | a token without a dot has no second segment, and getPayload raises |
| Jwt.SegmentsDecoded | peps/jwt/JWT.php:90-112 | getHeader decodes the text before the first dot, getPayload the text between the first dot and the next one or the end |
| Jwt.Check | peps/jwt/JWT.php:73-82 | check raises exactly when a getter does, and otherwise holds iff regenerating with validity 0 reproduces the token |
| Jwt.ZeroValidityIgnoresClock | peps/jwt/JWT.php:32-40 | generating with validity ≤ 0 does not depend on the clock and equals generating with 0 |
| Jwt.CheckSound | peps/jwt/JWT.php:73-82 | a token check accepts has three segments, its third the HMAC of the first two, its first two encoding its own decoded header and payload, and it passes isClean |
| Jwt.CheckAcceptsIssued | peps/jwt/JWT.php:73-82 | check accepts an issued token whenever the built-ins decode its segments back to what was encoded |
| Jwt.SecretEntersOnlyThroughKey | peps/jwt/JWT.php:52-54 | a token depends on the secret only through its base64 encoding, the HMAC key: secrets that encode alike give the same token, and two tokens are equal exactly when their signatures are |
| Jwt.IsExpired | peps/jwt/JWT.php:120-127 | isExpired raises exactly when getPayload does, and is `exp < now` with PHP's reading of a missing exp |
| Jwt.ExpiryIsStrict | peps/jwt/JWT.php:126 | with an integer exp, expired iff `exp < now`; a token whose exp equals now is live |
| Jwt.IssuedTokenLifetime | peps/jwt/JWT.php:33-40 | a token issued at t for v > 0 seconds is expired at `now` exactly when `t + v < now` |
| Jwt.SegmentShapedNoDot | peps/jwt/JWT.php:137 | a segment matching the class of isClean holds no dot |
| Jwt.ThreeSegmentsJoin | peps/jwt/JWT.php:135-140 | three non-empty class strings joined by dots match the three-segment pattern |
| Jwt.ThreeSegmentsSplit | peps/jwt/JWT.php:135-140 | a string matching the pattern is its three exploded pieces joined by dots |
| Jwt.IsCleanMeaning | peps/jwt/JWT.php:135-140 | isClean holds exactly of three non-empty `[A-Za-z0-9_=-]` strings joined by single dots, optionally followed by one newline |
| Jwt.UrlSegmentShaped | peps/jwt/JWT.php:137 | a non-empty base64url text matches the segment class |
| Jwt.GeneratedIsClean | peps/jwt/JWT.php:135-140 | every token generate (lines 32-64) builds passes isClean |
| Jwt.IsValidJWT | peps/jwt/JWT.php:148-170 | the token is returned iff the credential of the first header source is non-empty, holds `Bearer\s\S+`, and with every "Bearer " removed passes isClean, check and not-expired; a TypeError iff it passes isClean and then check or isExpired raises; otherwise false |
| Jwt.Credential | peps/jwt/JWT.php:150-161 | the credential is trimmed; `$_SERVER['Authorization']` is taken first, then `HTTP_AUTHORIZATION`, then apache's `Authorization`; with none of them it is empty |
| Jwt.AcceptedIsSigned | peps/jwt/JWT.php:148-170 | an accepted token has three base64url segments and the third is the HMAC of the first two |
| Jwt.UrlTextNoSpace | peps/jwt/JWT.php:165 | base64url text holds no space |
| Jwt.BearerStripped | peps/jwt/JWT.php:150-165 | the credential "Bearer t" is trimmed to itself, matches the Bearer pattern, and has "Bearer " removed to give t |
| Jwt.BearerTrimmed | peps/jwt/JWT.php:153 | trimming leaves "Bearer t" unchanged when t ends with a base64url character |
| Jwt.BearerFound | peps/jwt/JWT.php:163 | "Bearer t" matches `Bearer\s(\S+)` when t starts with a base64url character |
| Jwt.BearerRemoved | peps/jwt/JWT.php:165 | removing "Bearer " from "Bearer t" gives t when t has no space |
| Jwt.IssuedTokenValidates | peps/jwt/JWT.php:148-170 | a token issued at t for v > 0 seconds and sent in `Authorization` is returned up to second t + v and refused afterwards |
| Jwt.WithoutExpNeverAccepted | peps/jwt/JWT.php:126-166 | with the clock not 0, a token without an integer exp is never accepted, whatever its signature (the expiry test of line 126 as isValidJWT applies it on line 166) |
| LegacyJwt.StampedLifetime | classes/JWT.php:29-36 | iat/exp are added only for a positive validity, and then `exp - iat == validity`; otherwise the payload is unchanged |
| LegacyJwt.Generate | classes/JWT.php:28-60 | with conforming built-ins the token splits on dots into the encoded header, the encoded stamped payload, and the signature of those two |
| LegacyJwt.GetHeader | classes/JWT.php:86-93 | a token without a dot is decoded whole as the header |
| LegacyJwt.GetPayload | classes/JWT.php:101-108 | a token without a dot has no payload, and getPayload raises |
| LegacyJwt.Check | classes/JWT.php:69-78 | check raises exactly when one of the getters does |
| LegacyJwt.IsExpired | classes/JWT.php:116-123 | isExpired raises exactly when getPayload does |
| LegacyJwt.IsValidMeaning | classes/JWT.php:131-136 | isValid holds exactly of three non-empty `[A-Za-z0-9_=-]` strings joined by single dots, optionally followed by one newline |
| LegacyJwt.TokenSegments | classes/JWT.php:44-57 | the token is three non-empty segments joined by dots, none holding `+`, `/` or `=` |
| LegacyJwt.NoUnsafeInUrlText | classes/JWT.php:44-54 | base64url text holds none of `+`, `/`, `=` |
| LegacyJwt.CheckIsRegeneration | classes/JWT.php:69-78 | check holds iff both getters succeed and regenerating with validity 0 reproduces the token exactly |
| LegacyJwt.IssuedTokenAccepted | classes/JWT.php:28-78 | the class's own tokens pass check, and isValid (lines 131-136), when the built-ins decode their segments back |
| LegacyJwt.CheckedIsValid | classes/JWT.php:131-136 | a token check (lines 69-78) accepts has the shape isValid demands |
| LegacyJwt.ExpiryIsStrict | classes/JWT.php:116-123 | expiry with an integer exp is the strict comparison `exp < now` |
| Users.DigitPairsLength | entities/User.php:303 | `([0-9]{2}){k}` matches exactly the digit strings of length 2k |
| Users.MobileMeaning | entities/User.php:303 | on digits, the phone pattern holds exactly of 10 digits starting with 0 then a non-zero digit |
| Users.ZipMeaning | entities/User.php:327 | the zip pattern holds exactly of five digits ending in 0, optionally followed by one newline |
| Users.User.constructor | entities/User.php:137-139 | a new user has the given id and every other property null |
| Users.User.Hydrate | entities/User.php:175 | hydrate reports whether the row exists, copies every column when it does and changes nothing otherwise |
| Users.User.LoadAccount | entities/User.php:175 | roles, username, password and email take the row's values, a null role or password column giving a null property |
| Users.User.LoadContact | entities/User.php:175 | both names and the mobile number take the row's values |
| Users.User.LoadAddress | entities/User.php:175 | address, complement, zip code and city take the row's values |
| Users.User.IsValidUsername | entities/User.php:267-269 | the username is valid iff `3 < length < 255` |
| Users.User.IsValidEmail | entities/User.php:275-278 | the email is replaced by what FILTER_VALIDATE_EMAIL gives (`?: null`) and is then valid iff it is truthy and shorter than 255 |
| Users.User.IsValidLastName | entities/User.php:284-286 | valid iff `2 < length < 255` |
| Users.User.IsValidFirstName | entities/User.php:292-294 | valid iff `2 < length < 200` |
| Users.User.IsValidMobile | entities/User.php:301-304 | the mobile number is overwritten with its digits, and valid iff there are 10 of them, the first 0 and the second not 0 |
| Users.User.IsValidPostMail | entities/User.php:310-312 | valid iff `6 < length < 255` |
| Users.User.IsValidPostMailComplement | entities/User.php:318-320 | valid iff `2 < length < 255` |
| Users.User.IsValidZipCode | entities/User.php:326-328 | valid iff the zip pattern holds, so it then starts with five digits, the fifth a 0 |
| Users.User.IsValidCity | entities/User.php:334-336 | valid iff `length < 255` |
| Users.User.SecureReturnedUser | entities/User.php:257-261 | pwd and roles are unset, every other field is unchanged, and the same user is returned |
| Users.SubmittedProfile | controllers/UserController.php:320-352 | the form values written on the user: empty values become null, the email is the validated one, a given mobile number becomes its digits |
| Users.HasRole | entities/User.php:191-193 | the role loop finds the role exactly when it is in the list |
| Users.Session.constructor | entities/User.php:130 | a request starts with no cached logged user |
| Users.Session.GetLoggedUser | entities/User.php:168-179 | a cached user is returned unchanged; with an empty cache a valid token yields a new user whose id is the `(int)` of the token's user_id, with that row's roles, or null roles when no row has the id; without a valid token, null |
| Users.Session.IsGranted | entities/User.php:186-195 | raises iff a user is logged in and its roles are null; true iff the role is among the logged user's roles, not the receiver's; false when nobody is logged in |
| Users.CacheOutlivesToken | entities/User.php:172-178 | once a user is cached, later calls return it whatever the token says |
| Users.User.AsPrincipal | entities/User.php:189 | isGranted sees the user's id, and a role list exactly when the roles property holds one |
| Users.UserIdClaim | entities/User.php:173 | an integer claim is the id as is; a text or missing claim gives a non-negative id, 0 when missing |
| Users.UserIdClaimDigits | entities/User.php:173 | a text claim holding the decimal digits of k reads as k |
| Lines.QuantityFitsMeaning | entities/Line.php:106-109 | `quantity > 0 && quantity <= stock` under PHP null comparison holds iff both are given and `0 < quantity <= stock` |
| Lines.Line.constructor | entities/Line.php:70-73 | a new line has the given id and every other field null |
| Lines.Line.FromRow | controllers/LineController.php:108-111 | a loaded line has the row's columns and nothing cached |
| Lines.Line.GetCommand | entities/Line.php:80-86 | the command is loaded only while the cache is null; afterwards the cached command is returned |
| Lines.Line.GetProduct | entities/Line.php:93-99 | the product is loaded only while the cache is null; afterwards the cached product is returned |
| Lines.Line.IsValidQuantity | entities/Line.php:106-109 | valid iff the product has a stock and `0 < quantity <= stock` |
| Lines.Line.IsValidPrice | entities/Line.php:116-119 | valid iff the line's price equals the product's price and is positive |
| LineController.Guard | controllers/LineController.php:94-99 | the request goes on iff the user holds ROLE_USER, the cart exists, is in status cart, and the user's id loosely equals its customer; access is checked before the cart's existence; a user without ROLE_USER, or whose id loosely differs from the customer (null when there is no cart), is answered ACCESS_DENIED, a missing cart otherwise INVALID_ID, and a cart not in status cart NO_CHANGE_ALLOWED |
| LineController.MergedQuantity | controllers/LineController.php:115 | adding gives `existing + requested`, updating gives `requested`, and a total of 0 becomes null |
| LineController.Clamped | controllers/LineController.php:117-118 | a quantity above the stock becomes the stock, so a non-zero result never exceeds it |
| LineController.StoredQuantity | controllers/LineController.php:115-120 | the final quantity is accepted iff the stock and the requested total are positive, and is then their minimum |
| LineController.QuantityErrors | controllers/LineController.php:119-120 | INVALID_QUANTITY is reported iff the quantity is not within `1..stock` |
| LineController.PriceErrors | controllers/LineController.php:121-123 | INVALID_PRICE is reported iff the price is not the product's positive price |
| LineController.LineErrors | controllers/LineController.php:104-123 | each of the product, quantity and price errors is reported exactly when its rule fails |
| LineController.SettleQuantityAndPrice | controllers/LineController.php:115-123 | on the target line, the quantity is merged and clamped and the price set; the errors are those of the quantity and price rules |
| LineController.LocateTarget | controllers/LineController.php:104-114 | the product id sent is written and INVALID_PRODUCT raised iff it is null or not positive; the colliding (or named) stored line is found; the given line's product is loaded; work goes on on a fresh copy of the stored line when there is one, holding its command, product, quantity and price; the given line keeps its command and, on a rewrite, takes the idLine sent |
| LineController.FillLine | controllers/LineController.php:101-129 | the errors are those of the product, quantity and price rules over the line worked on; the line is dropped iff there are errors, saved iff there are none and the write succeeds, and the request crashes iff the write throws; a saved line belongs to the stored line's command and product when one was found, and otherwise is the given line with its own command |
| LineController.ProcessingDataLine | controllers/LineController.php:88-130 | a user with null roles crashes the request; otherwise a guard failure stops it, and past the guards the errors are those of the product, quantity and price rules over the existing line, and the line is saved iff there are none and the write succeeds; a saved stored line keeps its own command, which need not be the guarded cart |
| LineController.RewriteReachesAnyLine | controllers/LineController.php:110-114 | with unique line ids, a rewrite targets the stored line named by the idLine sent, whatever command the guards checked |
| LineController.SavedLineIsValid | controllers/LineController.php:124-129 | a saved line has a positive product id, a quantity within the stock and the product's positive price |
| LineController.RemoveLine | controllers/LineController.php:62-76 | a missing line or command, or a cart seen by a user with null roles, crashes; a line is removed iff it and its command exist, the command is a cart, and the user holds ROLE_USER and is its customer (strictly); a command that is not a cart is answered NO_CHANGE_ALLOWED, and a cart refused to anyone else (roles not null) ACCESS_DENIED |
| CommandController.Show | controllers/CommandController.php:69-88 | nobody logged in is told to log in; a user with null roles crashes the request; a command is shown iff the user is an admin or holds ROLE_USER and is its customer |
| CommandController.CartOf | entities/User.php:245-250 | the cart found is a command of the customer in status cart, and none is found only when the customer has none |
| CommandController.Create | controllers/CommandController.php:99-128 | creation is refused iff the logged user already has a cart; otherwise the request crashes iff the insert throws; a new command is a cart of the logged user (null when anonymous), dated now, added to the table |
| CommandController.CreateKeepsOneCartEach | controllers/CommandController.php:113-119 | when every customer has at most one cart, creating a cart keeps it so |
| CommandController.CheckoutAccepts | controllers/CommandController.php:164-206 | checkout accepts the details iff the email is at most 50 characters, the names 2..255 and 2..200, the mobile digits a valid number, the address 6..255, the complement ≤ 255, the zip five digits ending in 0, the city ≤ 255 |
| CommandController.NameRulesDisagree | controllers/CommandController.php:169-175 | a two-letter name passes the checkout but fails the entity's validators |
| CommandController.FillCustomer | controllers/CommandController.php:164-206 | the user's details become the submitted values and the errors are the checkout's, in order |
| CommandController.FillContact | controllers/CommandController.php:164-185 | email, names and mobile are written and checked in order |
| CommandController.FillAddress | controllers/CommandController.php:187-206 | address, complement, zip and city are written and checked in order |
| CommandController.FillEmail | controllers/CommandController.php:164-167 | the email becomes the validated one and is refused iff missing or longer than 50 |
| CommandController.FillNames | controllers/CommandController.php:169-175 | each name is refused iff missing or outside 2..255 (last) and 2..200 (first) |
| CommandController.FillMobile | controllers/CommandController.php:177-185 | a given number becomes its digits; it is refused iff missing or not matching the phone pattern |
| CommandController.FillStreet | controllers/CommandController.php:187-196 | the address is refused iff missing or outside 6..255; a given complement iff longer than 255 |
| CommandController.FillLocality | controllers/CommandController.php:198-206 | the zip code is refused iff missing or not matching its pattern; the city iff missing or longer than 255 |
| CommandController.OrderRefRoundTrip | controllers/CommandController.php:226 | the reference is the 14-character stamp followed by the customer id's digits, which read back as the id |
| CommandController.OrderRef | controllers/CommandController.php:226 | the reference starts with the stamp, and is the stamp alone exactly when the customer id is null |
| CommandController.OrderRefsDiffer | controllers/CommandController.php:226 | two customers' references made in the same second differ |
| CommandController.OpenOrder | controllers/CommandController.php:221-226 | the cart becomes status open, with order date and last change both now, and its reference |
| CommandController.Conclude | controllers/CommandController.php:209-244 | with field errors nothing is saved; without them a failed user insert ends the request, otherwise the order is opened, and success holds iff no error was recorded |
| CommandController.TakeCustomer | controllers/CommandController.php:155-206 | on a cart the logged user, or else a fresh user with roles `["ROLE_PUBLIC"]` and no id, carries the submitted details and the errors are the checkout's; otherwise nothing is read and nobody changes |
| CommandController.Save | controllers/CommandController.php:208-244 | the user gets the inserted id only when there are no field errors, the insert succeeds and it had none; the answer is Conclude's |
| CommandController.Update | controllers/CommandController.php:140-245 | a missing command is answered "no order"; on a cart the user's details are the submitted ones and a new user has roles `["ROLE_PUBLIC"]`; a non-cart changes no existing user |
| CommandController.CheckoutOpensOrder | controllers/CommandController.php:221-236 | a valid checkout whose writes succeed saves an open order of that customer |
| CommandController.UserExistsMeansNoUser | controllers/CommandController.php:209-216 | without field errors, USER_EXISTS is reported iff there was no user object |
| CommandController.PurgeStaleCarts | controllers/CommandController.php:268-279 | the loop removes exactly the stale anonymous carts, in order, and counts them, up to the first anonymous cart with a null lastChange, where it crashes |
| CommandController.FirstUndated | controllers/CommandController.php:270-271 | the position of the first anonymous cart with a null lastChange: no cart before it is one, and it is one unless it is the end |
| CommandController.Delete | controllers/CommandController.php:256-284 | nobody logged in is told to log in; null roles crash; only an admin purges; an undated anonymous cart crashes the request after the stale carts before it are removed; otherwise a command remains iff it was not an anonymous cart older than two days, and `nb` is the number removed |
| ProductController.List | controllers/ProductController.php:34-64 | a TypeError in isValidJWT, nobody logged in, or null roles crash; no ROLE_USER exits; the products are listed iff the token is valid and there are some |
| ProductController.ListNeverReportsBadToken | controllers/ProductController.php:36-60 | when the logged user and the token agree, the bad-token answer is unreachable |
| ProductController.Drafted | controllers/ProductController.php:110-176 | every field holds the value sent when that is truthy (a non-empty, non-"0" text, a non-zero number) and null otherwise |
| ProductController.GenderAlwaysRejected | controllers/ProductController.php:134-138 | INVALID_GENDER is reported iff a gender is given, whatever it is |
| ProductController.ProductAccepted | controllers/ProductController.php:110-176 | creation yields no errors iff category ≤ 50, type ≤ 100, name ≤ 255 and description are given, `0 < price ≤ 10000`, stock > 0, no gender, species given and ≤ 200, race ≤ 200, birth 0 or within `2010..currentYear`, `0 < dimensionsMax ≤ 10000`, unit ≤ 10, specification ≤ 50, specificationValue 0 or positive, specificationUnit ≤ 3 |
| ProductController.ProductErrors | controllers/ProductController.php:110-176 | the validation ends the request exactly when the species sent is missing, falsy or longer than 200 |
| ProductController.AuthorClaim | controllers/ProductController.php:190 | writing the claim into `?int idAuthor` raises exactly for a text claim; a missing claim gives null, an integer claim that integer |
| ProductController.StockMustBePositive | controllers/ProductController.php:130-132 | a stock of 0 or below is rejected |
| ProductController.BirthCheckedOnlyWhenGiven | controllers/ProductController.php:148-152 | INVALID_BIRTH is reported iff a non-zero birth lies outside `2010..currentYear` |
| ProductController.Product.constructor | controllers/ProductController.php:106 | a new product has every field null |
| ProductController.FillIdentity | controllers/ProductController.php:110-138 | category to gender are written as drafted and checked in order |
| ProductController.FillText | controllers/ProductController.php:110-124 | the text fields are written and checked |
| ProductController.FillOffer | controllers/ProductController.php:126-138 | price, stock and gender are written and checked |
| ProductController.FillDetails | controllers/ProductController.php:144-176 | race to specification unit are written and checked in order |
| ProductController.FillOrigin | controllers/ProductController.php:144-160 | race, birth and dimensionsMax are written and checked |
| ProductController.FillSpecification | controllers/ProductController.php:162-176 | dimensions unit and the specification are written and checked |
| ProductController.Draft | controllers/ProductController.php:106-176 | a fresh product; the outcome is the validation's (None exactly when the species check ends the request), and otherwise the product holds the drafted values |
| ProductController.Create | controllers/ProductController.php:104-212 | an invalid species, a non-integer author claim or a throwing write crashes; otherwise with no token nothing is stored; the product is stored iff there are no errors and a token names its author, and the errors reported are exactly the field errors |
| ProductController.CreateMessage | controllers/ProductController.php:195-208 | every answer but a crash carries its message |
| UserController.OwnRecordOnly | controllers/UserController.php:76 | without ROLE_ADMIN a user reaches one record at most, its own, and only with a role list holding ROLE_USER |
| UserController.List | controllers/UserController.php:32-51 | a logged user with null roles crashes the request; otherwise the user list is given iff the caller holds ROLE_ADMIN |
| UserController.Show | controllers/UserController.php:61-90 | nobody logged in is told to log in; null roles crash; access iff (ROLE_USER and own id) or ROLE_ADMIN; an allowed request gets the stored user without pwd and roles, or null |
| UserController.PasswordRule | controllers/UserController.php:304-306 | a password is accepted iff it is given, has 4 to 255 characters and equals its confirmation |
| UserController.CreationErrorsMeaning | controllers/UserController.php:296-307 | each creation error is reported iff its rule fails; the username error comes first and the password error last |
| UserController.CreationErrors | controllers/UserController.php:298-307 | at most three errors, each the username, email or password message; the password message iff the password rule fails |
| UserController.ProcessingUserCreation | controllers/UserController.php:290-313 | a new user with roles `["ROLE_USER"]`, the submitted username, the validated email, the password hashed only when accepted, and the errors in the order username, email, password |
| UserController.TakeIdentity | controllers/UserController.php:298-303 | the username is kept as sent and the email becomes the validated one; each is refused iff its rule fails, username first |
| UserController.TakePassword | controllers/UserController.php:304-308 | an accepted password is replaced by its hash, a refused one kept as sent; the error is raised iff the password rule fails |
| UserController.UpdateAccepts | controllers/UserController.php:326-349 | an update is accepted iff the validated email is present and shorter than 255, and every other field is empty or passes its entity validator |
| UserController.UpdateErrors | controllers/UserController.php:326-349 | every error is one of the eight field messages; the email message iff the validated email is missing, falsy or 255 characters or longer |
| UserController.OmittedFieldsPass | controllers/UserController.php:329-349 | a valid email with every other field empty is accepted |
| UserController.EmailMandatory | controllers/UserController.php:326-328 | without an email the first error is "Email invalide" |
| UserController.ProcessingUserUpdate | controllers/UserController.php:319-354 | the user's details become the submitted values and the errors are the update rules', in order |
| UserController.UpdateContact | controllers/UserController.php:326-337 | email, names and mobile are written and checked, each optional field only when given |
| UserController.UpdateAddress | controllers/UserController.php:338-349 | address, complement, zip and city are written and checked only when given |
| UserController.UpdateEmail | controllers/UserController.php:326-328 | the email becomes the validated one and is refused iff missing or not shorter than 255 |
| UserController.UpdateNames | controllers/UserController.php:329-334 | a given name is refused iff the entity's validator refuses it; an absent one never is |
| UserController.UpdateMobile | controllers/UserController.php:335-337 | a given number becomes its digits and is refused iff the phone pattern fails |
| UserController.UpdateStreet | controllers/UserController.php:338-343 | a given address or complement is refused iff its validator refuses it |
| UserController.UpdateLocality | controllers/UserController.php:344-349 | a given zip code or city is refused iff its validator refuses it |
| UserController.UpdateOutcome | controllers/UserController.php:139-177 | null roles crash; otherwise refused iff not owner or admin; a missing user crashes; otherwise success iff no field error and the write succeeds |
| UserController.Update | controllers/UserController.php:139-177 | the answer is UpdateOutcome's; an updated user keeps its id and username, carries the submitted details, and is returned without pwd and roles |
| UserController.Delete | controllers/UserController.php:187-224 | null roles crash; refused iff not owner or admin; a missing user is a success "Aucun User trouvé."; otherwise success is what `remove()` returns, a caught Error leaves no message, and an exception that is not an Error crashes the request |
| UserController.MissingUserDeleteSucceeds | controllers/UserController.php:208-221 | deleting an id no user has is answered as a success |

## Left out

- The built-ins `json_encode`/`json_decode`, `base64_encode`/`base64_decode` and `hash_hmac` are parameters with no definition. PHP's non-strict `base64_decode` is not the inverse of cleaning, so every round trip through `check` assumes a faithful decoding of the segments involved.
- The key order of PHP arrays in JSON is not modelled; claims are a map.
- Jwt.IsExpired: a non-integer `exp` claim (a string or a float) is read as a missing one, not compared as PHP would.
- JWT claims are integers and texts only: JSON booleans, null, floats, lists and nested objects are not represented. So the model cannot show, for instance, that an `exp` of `true` never expires under PHP 8's comparison of a bool with an integer.
- Users.UserIdClaim: `(int)` of a text claim reads its leading digits only; signs, whitespace and exponents are not modelled.
- The `roles` column is taken to hold a JSON list of role names (or nothing): `json_decode` of a stored list is taken as returning that list. A column holding a JSON object is not modelled; `json_decode` without `true` (`entities/User.php:189`) makes it a `stdClass`, whose property values the `foreach` walks, so `{"a":"ROLE_ADMIN"}` would grant ROLE_ADMIN. A text that decodes to a scalar or to nothing reads as no roles, as `foreach` over it only warns. A null or unset roles property is modelled: isGranted raises.
- The database and the ORM (`findOneBy`, `findAllBy`, `persist`, `remove`, `hydrate`) are modelled as tables of rows and parameters that say whether a write throws. The rows written by `persist` are not modelled, except for the order checkout opens and the carts `delete` removes. SQL ordering (`ORDER BY name`, `lastName, firstName`) is not modelled: the list handlers take the query result as given.
- A null key in `findOneBy` (a null id of a line, command or user) is taken to match no row, as the ORM is taken to compile it to SQL `= NULL`, which is never true. The ORM is not part of this model.
- A failing write is taken to throw a PDOException (an `Exception`), with PDO's error mode set to throw. A write that fails silently (returns false) or throws an `Error` is not modelled. So `catch (Error)` at `controllers/CommandController.php:212` lets a failing user write through, and on this assumption CommandController.UserExistsMeansNoUser holds: the Error caught there comes only from calling `persist()` on a missing user object.
- UserController.UpdateOutcome: `persistError` is the message of an `Exception` that `catch (Exception $e)` (`controllers/UserController.php:163`) catches; a persist throwing an `Error`, which that catch does not stop, is not modelled.
- LineController.MergedQuantity: the sum of line 115 is an unbounded integer; PHP's 64-bit addition, which becomes a float on overflow, is not modelled.
- The clock (`new DateTime()`, `date()`, `date_diff`) is a set of parameters: `now`, the two `date()` strings, `currentYear`, and `ageDays` for the age of a non-null lastChange. A lastChange text that `DateTime` cannot parse is not modelled; a null one is (the purge crashes).
- CommandController.PurgeStaleCarts: `remove()` of a stale cart is taken to succeed; a throwing removal is not modelled.
- LineController.RemoveLine: `Command::isCart()` (`controllers/LineController.php:66`) is defined in none of the files of this model, and `entities/Command.php` has no such method. It is read as `status === 'cart'`, an interpretation.
- The sanitising filters of `filter_input`/`filter_var`, `php://input` parsing and `Utils::getInputData` are not modelled: the inputs are the values as the filters leave them.
- `FILTER_VALIDATE_EMAIL` is a parameter function, and `password_hash` a parameter function.
- `Router::json`/`responseJson` are taken to send the answer and end the request. The JSON of the answers and the `jwt_token` field of the results are not modelled.
- Users.Session.GetLoggedUser: the TypeError that `isValidJWT` raises on a malformed accepted-shape token is excluded by a precondition.
- `UserController::create`, `login` and `logout` are not modelled. They call `JWT::destroy`, which does not exist, and `create` and `login` call `JWT::generate` with the wrong arguments, so they end in an error.
- ProductController.Create: product creation reaches the undefined constant `ProductControllerException::INVALID_SPECIES` whenever the species check fails. This is modelled as a crash of the request (`CreateCrashed`) with no message.
- `ProductController::show`, `update` and `remove`/`delete` and `CommandController::list` are not modelled; they lie outside the modelled core.
- `updateLine`/`addLine` in LineController beyond `processingDataLine` and `removeLine` (building the line from the request and answering) are not modelled; the line removal's `remove()` and the reloading of the cart are not modelled either.
- The data-only entities (`entities/Product.php`, `Command.php`, `Order.php`, `Favorite.php`, `Recommendation.php`) and the exception-constant classes are not modelled beyond the columns and messages the core reads.
- UserController.Delete: when `remove()` throws an Error, the message variable is never set; the model answers with no message and leaves out what `Router::responseJson` makes of it.
- UserController.Show: `unset` on the null that `findOneBy` returns for a missing user is taken as doing nothing.
- Floating-point rounding is not modelled: prices and dimensions are real numbers and their checks are comparisons.
