# Realtor app: a Dafny model of the request core

This project models the decision logic of a small NestJS realtor service.
Realtors list homes with images. Buyers send inquiries about a home. Users
sign up and sign in with a password and receive a JSON Web Token. Signing up
as REALTOR or ADMIN needs a product key: the bcrypt digest of
`email-role-secret`.

The model covers:

- the listing filter built from query strings;
- the home store operations: list, read, create, update, delete, realtor
  lookup, inquire and list messages;
- the validation rules of the request DTOs and the response renaming;
- signup, signin, product keys and token validation;
- the product-key gate of the signup route and the `me` route;
- the role guard and the interceptor that attaches the decoded token as
  `request.user`;
- the whole request, with the guard first, then the interceptor, then the
  validation pipes and the handler.

The store is an immutable value, `Schema.Db`. It holds four tables kept as
sequences in insertion order, plus one autoincrement counter per table. Every
operation is a pure function that returns the next store and a `Result`. An
error is one of the HTTP exceptions the code throws, or `ServerError` for an
ORM or runtime failure, which the framework answers with 500. `Schema.Valid`
is the integrity the database keeps:

- ids are unique and below their counter;
- e-mails are unique;
- every home's realtor is a stored user;
- every image's home is stored.

The libraries are replaced by transparent stand-ins:

- **bcrypt** (`Bcrypt`): a digest is `$2a$10$`, a 22-character salt, then the
  first 72 characters of the text. Like bcryptjs, the digest depends only on
  the first 72 bytes. `Compare` accepts exactly the texts that agree with the
  digest's text on that window. The salt is a parameter, because the library
  draws it at random.
- **jsonwebtoken** (`Jwt`): a token is four `.`-separated segments: the
  escaped name, the id, the role, and a signature over the rest keyed by the
  secret. `Decode` reads the claims without checking the signature. `Verify`
  checks it.
- **class-validator**: each decorator is a predicate over an optional JSON
  value (`Validation`). `@IsEmail()` is the parameter `isEmail`.
- **Environment**: the two secrets are the fields of `AuthService.Env`.

Where the code disagrees with its own documentation or tests, the model
follows the code:

- The 403 descriptions of update, delete and the message list
  (src/home/home.controller.ts:138-141, 167-170 and 218-221) promise an
  ownership check: "Realtor id and home creator id didn't match". The
  handlers never compare the caller with the home's realtor (see Findings).
- A test (src/home/home.service.spec.ts:120-121) expects `getHomes` to fail
  with 404 when nothing matches. That throw is commented out
  (src/home/home.service.ts:67-69), so the model returns an empty list.
- The update handler calls `updateHome(id, body)` without the third `userId`
  argument (src/home/home.controller.ts:157). The model passes no user id, so
  `realtor_id` is left unchanged.

## Model

| member | source | states |
|---|---|---|
| HomeController.ParseIntPipe | src/home/home.controller.ts:100 | the id text is accepted exactly when it is an optional '-' followed by digits, and is then read as that integer; anything else is 400 |
| HomeController.ParseIntPipeRoundTrip | src/home/home.controller.ts:100 | every integer written as a numeral parses back to itself |
| HomeController.BuildFilter | src/home/home.controller.ts:71-84 | `price` is present iff minPrice or maxPrice is a non-empty string; `gte`/`lte` are present exactly for a non-empty minPrice/maxPrice and equal its parse; `city` and `propertyType` appear only when non-empty and unchanged; no other key exists |
| HomeController.NoQueryNoFilter | src/home/home.controller.ts:79-84 | with no query parameters, or only empty ones, the filter is `{}` |
| HomeController.TorontoExample | src/home/home.controller.ts:71-84 | city Toronto with minPrice 1500000 gives `{city, price: {gte: 1500000}}` with no `lte` and no `propertyType` |
| HomeController.BuildFilterRoundTrip | src/home/home.controller.ts:71-84 | building the filter from the query strings a client renders for whole-number bounds recovers those bounds, city and type |
| HomeController.ToWhere | src/home/home.controller.ts:83-86 | the ORM rejects a `propertyType` outside the enum (500); otherwise the `where` clause keeps city and price and names the same type |
| HomeController.GetHomesRoute | src/home/home.controller.ts:65-87 | the listing fails only for a type outside the enum, and then with 500 |
| HomeController.GetHomesRouteLists | src/home/home.controller.ts:65-87 | an entry is listed iff it is the summary of a stored home whose city equals the given city, whose price lies between the parsed bounds, and whose type has the given name |
| HomeController.GetOneHomeRoute | src/home/home.controller.ts:99-102 | 400 exactly for a non-numeric id; otherwise 404 or the response of a stored home with that id |
| HomeController.CreateHomeRoute | src/home/home.controller.ts:121-129 | an invalid body is 400 and the store is unchanged; with no request user it is 500; a created home's realtor is the request user's id |
| HomeController.UpdateHomeRoute | src/home/home.controller.ts:149-158 | errors leave the store unchanged; a bad id or body is 400, otherwise the only error is 404; no home's realtor id ever changes |
| HomeController.DeleteHomeRoute | src/home/home.controller.ts:175-183 | a bad id is 400 with no change; a numeric id succeeds iff a home has it, and then removes exactly that home and its images; an unknown numeric id is 500 with the homes unchanged; users and messages never change |
| HomeController.InquireRoute | src/home/home.controller.ts:200-209 | errors leave the store unchanged; the recorded message carries the request user's id, the path id and the body's message, appended to the message table |
| HomeController.GetHomeMessagesRoute | src/home/home.controller.ts:229-237 | 400 exactly for a non-numeric id; otherwise exactly the stored messages about that home |
| HomeController.OwnerNeverConsulted | src/home/home.controller.ts:149-237 | update, delete and the message list give the same answer and store for any two request users |
| HomeController.NonOwnerUpdates | src/home/home.controller.ts:149-158 | for every stored home, every valid payload and every caller who is not the home's realtor, the update succeeds |
| HomeController.NonOwnerDeletes | src/home/home.controller.ts:175-183 | a caller who is not the home's realtor deletes it |
| HomeController.OwnerCheck | src/home/home.controller.ts:138-141 | 404 iff the home is unknown; success iff a request user exists and is the home's realtor; otherwise 403 |
| HomeController.UpdateOwnHomeRoute | src/home/home.controller.ts:138-158 | a successful update was made by the home's realtor; for that caller it behaves as the unchecked route |
| HomeController.DeleteOwnHomeRoute | src/home/home.controller.ts:165-183 | a successful delete was made by the home's realtor; for that caller it behaves as the unchecked route |
| HomeController.GetOwnHomeMessagesRoute | src/home/home.controller.ts:216-237 | messages are returned only to the home's realtor; for that caller they are the unchecked route's answer |
| HomeController.NonOwnerForbidden | src/home/home.controller.ts:138-141 | with the check, a caller who is not the realtor of a stored home gets 403 on update, delete and messages, and the store is unchanged |
| HomeService.FirstImage | src/home/home.service.ts:56-61 | the chosen image belongs to the home and precedes every other image of it; none iff the home has no image |
| HomeService.Summary | src/home/home.service.ts:47-79 | a listing entry has exactly the selected columns under their response names, plus `image` iff the home has an image; each value is the home's, and `image` is the first image's URL |
| HomeService.GetHomes | src/home/home.service.ts:45-80 | one entry per stored home the filter selects |
| HomeService.GetHomesSound | src/home/home.service.ts:45-80 | every entry is the summary of a stored home matching the filter |
| HomeService.GetHomesComplete | src/home/home.service.ts:45-80 | every stored home matching the filter is listed |
| HomeService.GetHomesNoMatch | src/home/home.service.ts:67-69 | when nothing matches, the result is the empty list, not an error |
| HomeService.GetHomesNoFilter | src/home/home.service.ts:45-64 | without filter keys every home is listed, in table order |
| HomeService.GetOneHomeById | src/home/home.service.ts:82-92 | 404 iff no stored home has the id; otherwise the response of such a home |
| HomeService.HomeDetail | src/home/home.service.ts:82-92 | the single-home response has exactly the detail keys, with the counts under their camel-case names |
| HomeService.CreateHome | src/home/home.service.ts:94-124 | the new row gets the next id, the payload fields under their column names and the caller as realtor; one image per URL in order with that home id is appended; an unknown realtor is 500 with no change |
| HomeService.CreatedHomeIsNew | src/home/home.service.ts:107-118 | in a valid store the new home's id is not in use |
| HomeService.CreateHomePreservesValid | src/home/home.service.ts:94-124 | creating a home keeps the store's integrity |
| HomeService.CreatedHomeImages | src/home/home.service.ts:120-122 | afterwards the new home's image URLs are exactly the payload's, in order |
| HomeService.CreateThenGet | src/home/home.service.ts:82-124 | a created home can be read back by its id |
| HomeService.Patch | src/home/home.service.ts:148-162 | each supplied field replaces its column and every absent field keeps its value; the id is kept |
| HomeService.UpdateHome | src/home/home.service.ts:126-165 | 404 iff the id is unknown; 500 only for a realtor id no user has; every error leaves the store unchanged; otherwise only home rows with that id change, each patched, and the answer is such a patched row |
| HomeService.FindHomePatched | src/home/home.service.ts:139-162 | after the update the id finds the patched row |
| HomeService.UpdateHomeIdempotent | src/home/home.service.ts:126-165 | applying the same update twice gives the same store and answer as once |
| HomeService.UpdateHomePreservesValid | src/home/home.service.ts:126-165 | an update keeps the store's integrity |
| HomeService.EmptyUpdateKeepsStore | src/home/home.service.ts:148-162 | an update with no fields leaves the store as it was |
| HomeService.DeleteHome | src/home/home.service.ts:167-179 | the images of that id are removed first; an unknown id is then 500 with the homes unchanged; otherwise that home is removed and nothing else changes |
| HomeService.DeleteHomePreservesValid | src/home/home.service.ts:167-179 | deleting keeps the store's integrity |
| HomeService.DeleteThenGet | src/home/home.service.ts:167-179 | after deleting, the id reads as 404 and the home has no images |
| HomeService.GetRealtorByHomeId | src/home/home.service.ts:181-201 | 404 iff the home is unknown; otherwise the name, id, e-mail and phone of the stored user who is its realtor |
| HomeService.RealtorOfValidStore | src/home/home.service.ts:181-201 | in a valid store every stored home has a realtor to report |
| HomeService.Inquire | src/home/home.service.ts:203-214 | 404 iff the home is unknown, with no change; otherwise one message is appended with the next id, the buyer, the home and the home's realtor |
| HomeService.InquirePreservesValid | src/home/home.service.ts:203-214 | an inquiry keeps the store's integrity |
| HomeService.GetMessagesByHomeId | src/home/home.service.ts:216-222 | exactly the stored messages with that home id |
| HomeService.InquireThenMessages | src/home/home.service.ts:203-222 | after an inquiry the home's message list gains exactly the new message at its end |
| HomeDto.DecodeCreateHome | src/home/dtos/home.dto..ts:110-202 | accepted iff address and city are non-empty strings, the four sizes and the price are positive numbers, the type is in the enum, and images is an array of objects with a non-empty `url`; otherwise 400; the decoded fields are the body's |
| HomeDto.DecodeEncodeCreateHome | src/home/dtos/home.dto..ts:121-202 | decoding the JSON of a payload gives it back iff it is well formed, else 400 |
| HomeDto.DecodeUpdateHome | src/home/dtos/home.dto..ts:204-287 | every field is optional, and a present one must meet the create constraint; each given field is carried and each absent one is none |
| HomeDto.DecodeEncodeUpdateHome | src/home/dtos/home.dto..ts:204-287 | decoding the JSON of an update payload gives it back iff it is well formed, else 400 |
| HomeDto.EmptyUpdateAccepted | src/home/dtos/home.dto..ts:209-282 | an empty update body is valid and supplies no field |
| HomeDto.DecodeInquire | src/home/dtos/home.dto..ts:289-297 | accepted iff the message is a non-empty string, which is what is decoded |
| HomeDto.HomeResponse | src/home/dtos/home.dto..ts:15-108 | `created_at`, `updated_at`, `realtor_id` and the snake-case counts never appear; the counts appear as `numberOfBedrooms`/`numberOfBathrooms` with the column values; every other property passes through unchanged |
| HomeDto.HomeResponseKeys | src/home/dtos/home.dto..ts:41-103 | the response keys are the row keys minus the excluded and exposed names, plus each renamed count whose column is present |
| AuthDto.DecodeSignup | src/user/dtos/auth.dto.ts:12-54 | accepted iff name is a non-empty string, phone a string, email an e-mail, password at least 5 characters, and productKey absent or a non-empty string; otherwise 400 |
| AuthDto.DecodeEncodeSignup | src/user/dtos/auth.dto.ts:12-54 | decoding the JSON of a signup payload gives it back iff it is well formed |
| AuthDto.DecodeSignin | src/user/dtos/auth.dto.ts:56-70 | accepted iff email is an e-mail and password any string |
| AuthDto.DecodeEncodeSignin | src/user/dtos/auth.dto.ts:56-70 | decoding the JSON of a signin payload gives it back iff its e-mail is one |
| AuthDto.DecodeProductKeyRequest | src/user/dtos/auth.dto.ts:72-83 | accepted iff email is an e-mail and userType is ADMIN or REALTOR, so never BUYER |
| AuthDto.DecodeEncodeProductKeyRequest | src/user/dtos/auth.dto.ts:72-83 | decoding gives the request back iff the e-mail is one and the role is not BUYER |
| AuthService.RoleOf | src/user/auth/auth.service.ts:53-60 | an empty role means BUYER; any other string is accepted iff it names a role |
| AuthService.Signup | src/user/auth/auth.service.ts:35-63 | a taken e-mail is 409 with no change; otherwise one user is appended with the next id, the given fields and the role, and a stored password that is a cost-10 digest matching the plain one under Compare, and that differs from it for passwords of up to 72 characters; the token carries the name, new id and role |
| AuthService.SignupPreservesValid | src/user/auth/auth.service.ts:35-63 | signup keeps the store's integrity, including unique e-mails |
| AuthService.Signin | src/user/auth/auth.service.ts:65-90 | 404 iff the e-mail is unknown; other failures are 400; a token is issued only for a stored user with that e-mail whose password matches, over the stored name, id and role |
| AuthService.SigninStoredUser | src/user/auth/auth.service.ts:65-90 | for a stored user, signin succeeds iff the password matches, fails otherwise with 400, and its token names the stored user |
| AuthService.SignupThenSignin | src/user/auth/auth.service.ts:35-90 | right after signup, signing in with the same e-mail and password returns the token of the new account |
| AuthService.GenerateJwt | src/user/auth/auth.service.ts:98-109 | the token verifies and decodes to exactly `{name, id, userType}` |
| AuthService.GenerateProductKey | src/user/auth/auth.service.ts:92-96 | the key matches under Compare exactly the texts that agree with `email-role-secret` on bcrypt's 72-byte window; when that text is shorter than the window, it matches that text alone |
| AuthService.ValidateJwtToken | src/user/auth/auth.service.ts:111-119 | 401 iff verification fails; otherwise the verified payload |
| AuthService.ValidateIssued | src/user/auth/auth.service.ts:98-119 | an issued token validates to its claims, and under a different secret it is 401 |
| AuthController.ProductKeyGate | src/user/auth/auth.controller.ts:56-73 | no role is 400; BUYER always passes; any other role passes iff a product key is present and matches `email-role-secret`, else 401 |
| AuthController.SignupRoute | src/user/auth/auth.controller.ts:54-76 | an invalid body is 400; 401 only for a role other than BUYER; success only after the gate passed, and then it is the service's signup with the path role |
| AuthController.SignupNeedsRole | src/user/auth/auth.controller.ts:56-57 | an empty role is 400 and the store is unchanged |
| AuthController.BuyerSkipsKey | src/user/auth/auth.controller.ts:58 | BUYER signup goes to the service whatever key the body has |
| AuthController.KeylessSignupRefused | src/user/auth/auth.controller.ts:59-61 | any other role without a key is 401 and the store is unchanged |
| AuthController.IssuedKeyAccepted | src/user/auth/auth.controller.ts:63-72 | a key from generateProductKey for the e-mail and role always passes the gate |
| AuthController.KeyBoundToRole | src/user/auth/auth.controller.ts:63-72 | when the e-mail is short enough to leave the role inside bcrypt's 72-byte window, a key issued for one role is refused with 401 for another role |
| AuthController.PathRoleOverridesBody | src/user/auth/auth.controller.ts:75 | a `userType` field in the body changes nothing |
| AuthController.SigninRoute | src/user/auth/auth.controller.ts:88-91 | an invalid body is 400; otherwise the service's signin |
| AuthController.KeyRoute | src/user/auth/auth.controller.ts:103-106 | 400 iff the request is invalid; otherwise a key that matches exactly the texts agreeing with `email-role-secret` on bcrypt's window, for the requested e-mail and role, and only that text when it is shorter than the window |
| AuthController.LongEmailCrossesRoles | src/user/auth/auth.controller.ts:63-72 | for an e-mail of 71 characters or more, a REALTOR key opens signup as ADMIN, because the role lies past bcrypt's window |
| AuthController.SecretlessAdminKey | src/user/auth/auth.controller.ts:63-72 | for an e-mail of 65 characters or more, the digest of `email-ADMIN-`, made without the product secret, opens signup as ADMIN |
| AuthController.BoundProductKeyGate | src/user/auth/auth.controller.ts:63-72 | with key texts held inside bcrypt's window: a passing key for a role other than BUYER matches exactly `email-role-secret`; a text the window would cut is 401; otherwise it answers as the unbounded gate |
| AuthController.BoundKeyNeedsSecret | src/user/auth/auth.controller.ts:63-72 | behind the bounded gate, an ADMIN signup whose key text the window would cut is refused with 401, so the secretless key gets nowhere |
| AuthController.BoundKeyBoundToRole | src/user/auth/auth.controller.ts:63-72 | behind the bounded gate, a key issued for one role is refused for any other role, whatever the e-mail's length |
| AuthController.AnonymousAdminKey | src/user/auth/auth.controller.ts:93-106 | a request without a token passes the guard, obtains an ADMIN key, and that key opens ADMIN signup |
| AuthController.GuardedKeyRoute | src/user/auth/auth.controller.ts:93-106 | with ADMIN as the role, a refused caller gets 403 and a key goes only to a caller the guard admits as a stored ADMIN |
| AuthController.GuardedKeyNeedsAdmin | src/user/auth/auth.controller.ts:93-106 | behind the guard, anonymous callers and stored non-admins get 403 |
| AuthController.Me | src/user/auth/auth.controller.ts:119-125 | 401 iff no user is attached; otherwise that user unchanged |
| AuthGuard.CanActivate | src/guards/auth.guard.ts:19-49 | with no or empty roles it allows; otherwise allowing implies a bearer token that verifies and names a stored user whose stored role is listed |
| AuthGuard.CanActivateIff | src/guards/auth.guard.ts:19-49 | with unique ids it allows iff the route is open or the verified token names a stored user with a listed role |
| AuthGuard.MissingTokenDenied | src/guards/auth.guard.ts:27-46 | on a guarded route a missing header, or one without "Bearer ", denies |
| AuthGuard.ForgedTokenDenied | src/guards/auth.guard.ts:29-46 | a token signed with another secret denies, whatever it claims |
| AuthGuard.UnknownUserDenied | src/guards/auth.guard.ts:34-40 | a genuine token for an id no user has denies |
| AuthGuard.ClaimedRoleIgnored | src/guards/auth.guard.ts:42-43 | two genuine tokens for the same id get the same answer whatever role and name they claim |
| AuthGuard.GenuineTokenAdmitted | src/guards/auth.guard.ts:19-49 | a genuine token of a stored user passes iff the roles are empty or list the user's stored role |
| UserInterceptor.ExtractBearer | src/user/interceptors/user.interceptor.ts:12 | no token iff the header is missing or has no "Bearer "; otherwise a token free of "Bearer " that starts right after the first "Bearer " and runs up to the next "Bearer " or to the end of the header |
| UserInterceptor.BearerRoundTrip | src/user/interceptors/user.interceptor.ts:12 | a space-free token is read back from `"Bearer " + token` |
| UserInterceptor.Intercept | src/user/interceptors/user.interceptor.ts:6-19 | when a token is extracted, the attached user is its unverified decode, and there is none without a token; it yields a user, never an error |
| UserInterceptor.InterceptIgnoresSignature | src/user/interceptors/user.interceptor.ts:14-16 | a token signed with any secret, forged ones included, attaches its claims |
| RequestFlow.CreateHomeRequest | src/home/home.controller.ts:121-129 | a request the guard refuses is 403 with no change; success implies a token of a stored REALTOR |
| RequestFlow.AdmittedRealtorCreates | src/home/home.controller.ts:121-129 | an admitted request with a valid body creates a home owned by the stored realtor the token names |
| RequestFlow.UpdateHomeRequest | src/home/home.controller.ts:149-158 | a request the guard refuses is 403 with no change; success implies a token of a stored REALTOR |
| RequestFlow.UpdateOwnHomeRequest | src/home/home.controller.ts:138-158 | the same, with the ownership check behind the guard |
| RequestFlow.OtherRealtorUpdates | src/home/home.controller.ts:149-158 | a stored realtor updates a home owned by a different realtor |
| RequestFlow.OtherRealtorForbidden | src/home/home.controller.ts:138-158 | with the ownership check, a different realtor gets 403 with no change and the owner's update succeeds |
| RequestFlow.InquireRequest | src/home/home.controller.ts:200-209 | a request the guard refuses is 403 with no change; success implies a token of a stored BUYER |
| RequestFlow.AdmittedBuyerInquires | src/home/home.controller.ts:200-209 | an admitted buyer's inquiry about a stored home is recorded under the buyer's id and the home's realtor |
| RequestFlow.MeRequest | src/user/auth/auth.controller.ts:119-125 | a refused request is 403; an answer is the claims of a token that verifies |
| RequestFlow.MeEchoesToken | src/user/auth/auth.controller.ts:119-125 | a stored user's genuine token is answered with its own claims |
| RequestFlow.SigninTokenOpens | src/user/auth/auth.service.ts:83-89 | a signin token opens exactly the routes whose roles list the user's stored role |
| RequestFlow.RealtorJourney | src/user/auth/auth.service.ts:35-90 | a REALTOR account created by the service's signup, once signed in, can create a home, which is recorded under the new account's id |
| Bcrypt.CompareHash | src/user/auth/auth.service.ts:77-81 | a digest matches exactly the texts that share the first 72 characters of the text it was made from |
| Bcrypt.CompareHashShort | src/user/auth/auth.service.ts:77-81 | a digest of a text shorter than 72 characters matches that text and no other |
| Jwt.Sign | src/user/auth/auth.service.ts:100-108 | a signed token decodes and verifies to its claims and contains no space |
| Jwt.VerifyOtherSecret | src/user/auth/auth.service.ts:114 | a token signed with one secret does not verify under another |
| Schema.UserTypeNameRoundTrip | src/user/auth/auth.service.ts:53 | every role's name is in the enum and parses back to the role |
| Schema.PropertyTypeNameRoundTrip | src/home/dtos/home.dto..ts:177 | every property type's name is in the enum and parses back to it |

## Left out

- Persistence is a value, not a database. Each ORM call is an atomic update of the sequences. A failure between the two writes of create or delete is not modelled, and there are no transactions.
- Columns `created_at`/`updated_at` and token `iat`/`exp` are left out. They come from the clock, and token expiry is not checked.
- The message table's foreign keys and its behaviour when a home is deleted are not modelled. The database schema is not part of this model.
- `HomeService.DeleteHome`: "succeeds iff a home has the id" ignores messages. The images are deleted first (src/home/home.service.ts:167-171). A message that references the home may then make `home.delete` fail, after the images are gone. Whether it does depends on the schema's foreign key.
- `HomeController.DeleteHomeRoute`: inherits the same gap. A home with messages may answer 500 in the source, with its images already removed.
- `HomeService.FirstImage`: the image query of the listing has no `orderBy`, so the row the database returns for `take: 1` is not fixed. The model takes the first image in insertion order.
- `HomeService.GetHomesNoFilter`: the listing query has no `orderBy` (src/home/home.service.ts:46-65), so the database's row order is unspecified. The model lists homes in insertion order. Which homes are listed (`HomeService.GetHomesSound`, `HomeService.GetHomesComplete`) does not depend on that order.
- `HomeService.InquireThenMessages`: the message query has no `orderBy` (src/home/home.service.ts:217-221). "At its end" assumes the database returns messages in insertion order. `HomeService.GetMessagesByHomeId` itself is stated by membership only.
- `HomeService.GetOneHomeById`: the single-home response also carries the row's `listed_date`, a timestamp the database fills from the clock. The model has no such column, so its response lacks that key. The same holds for the rows `HomeService.CreateHome` and `HomeService.UpdateHome` answer with.
- `HomeService.HomeDetail`: its exact key set omits `listed_date`, for the same reason.
- `HomeDto.HomeResponse`: the `landSize()` accessor carries both `@Exclude()` and `@Expose({ name: 'lasnSize' })` (src/home/dtos/home.dto..ts:84-89). Which one wins depends on class-transformer internals. The model lets the exclusion win, so neither `landSize` nor `lasnSize` appears, and the column `land_size` passes through.
- `HomeController.BuildFilter`: a price string must be decimal digits. `parseFloat` on other text (fractions, signs, exponents, trailing junk) is not modelled, and prices are exact reals, not IEEE doubles.
- `HomeController.GetHomesRoute`: stated only for price strings of decimal digits. Fractions ("12.5"), exponents ("1e6"), trailing text ("12abc", read as 12) and text `parseFloat` reads as NaN ("abc") are not covered; the ORM's answer to a NaN bound is not modelled.
- `HomeController.GetHomesRouteLists`: the listing iff holds only for price strings of decimal digits, for the same reason.
- `HomeController.ParseIntPipe`: the global validation pipe (src/main.ts:8-16, `transform: true`) runs first and converts a path parameter declared as a number with JavaScript's number conversion. The parameter's `ParseIntPipe` then tests the decimal form of that number. So the service also accepts ids such as "1e3", "0x1A", " 12", "+7" and "5.0" (as 1000, 26, 12, 7 and 5). It rounds numerals above 2^53 and refuses those of 1e21 and more. The model leaves this conversion out: it accepts exactly an optional '-' followed by digits, read as the exact integer.
- `HomeController.ParseIntPipeRoundTrip`: holds in the model for every integer. Through the number conversion it holds only for magnitudes up to 2^53; larger numerals are rounded, and from 1e21 on refused.
- `HomeController.GetOneHomeRoute`: its 400 for a non-numeric id inherits the `ParseIntPipe` simplification. Ids the number conversion accepts, such as "1e3", reach the service in the source.
- `HomeController.UpdateHomeRoute`: its 400 for a bad id inherits the `ParseIntPipe` simplification.
- `HomeController.DeleteHomeRoute`: its 400 for a bad id inherits the `ParseIntPipe` simplification.
- `HomeController.InquireRoute`: its 400 for a bad id inherits the `ParseIntPipe` simplification.
- `HomeController.GetHomeMessagesRoute`: its 400 for a non-numeric id inherits the `ParseIntPipe` simplification.
- Query parameters given more than once (arrays) are not modelled.
- The global pipe's implicit type conversion (`enableImplicitConversion`) is not modelled. A body field must already have its declared JSON type, and JSON `null` counts as absent.
- `HomeDto.DecodeUpdateHome`: a `null` update field passes `@IsOptional()`, and the service hands it to the ORM update as `null`. The ORM refuses that for a required column, which gives 500. The model treats the field as absent and answers as if it were not given.
- `HomeController.UpdateHomeRoute`: for the same reason, a body with a `null` field is answered with success in the model and with 500 by the service.
- `@IsEmail()` is the parameter `isEmail`. Its regular expression belongs to the validation library.
- bcrypt and jsonwebtoken are symbolic stand-ins. One-wayness, the cost factor's work and the real token encoding are not modelled. Characters stand for bytes, so a character outside ASCII counts as one byte of bcrypt's 72-byte window.
- `AuthController.ProductKeyGate`: a 60-character product key that is not a well-formed digest makes `bcrypt.compare` throw, and the service answers 500. The model's digests are symbolic and have no fixed length, so it answers 401 for every key that does not match.
- `AuthService.Signup`: that the stored digest differs from the password is stated for passwords of up to 72 characters. A longer password could in principle equal the symbolic digest of its own first 72 characters.
- `AuthController.KeyBoundToRole`: stated for e-mails short enough to keep the role inside bcrypt's window. For longer ones the opposite holds (`AuthController.LongEmailCrossesRoles`).
- The guard never modifies the store. This holds by the type of `AuthGuard.CanActivate`, which returns a boolean.
- Bootstrapping, Swagger, dependency injection, the `@Api*` decorators, the `User` parameter decorator (it returns `request.user`), async plumbing and the `console.log` in token validation are not modelled.
- Route dispatch itself is not modelled. Each route is a function that receives the already-split path, query and body.

## Findings

| source | as written | input that shows it | evidently intended | confidence | as-written member | corrected member |
|---|---|---|---|---|---|---|
| src/home/home.controller.ts:149-158,175-183,229-237 | update, delete and the message list never compare the caller with the home's realtor, although `ForbiddenException` is imported (line 13) and the routes document a 403 "Realtor id and home creator id didn't match" (lines 138-141, 167-170, 218-221) | a stored REALTOR whose id differs from the home's `realtor_id` sends `PUT /api/homes/:id` with a valid body; the update is applied | answer 403 unless the request user is the home's realtor | not executed | RequestFlow.OtherRealtorUpdates | RequestFlow.OtherRealtorForbidden |
| src/user/auth/auth.controller.ts:93-106 | `POST /api/auth/key` has no `@Roles`, so the guard lets every request through, although its summary says only a current ADMIN may run it | a request with no Authorization header and body `{email, userType: "ADMIN"}` gets a key, and that key opens `signup/ADMIN` for that e-mail | guard the route with ADMIN as its only role | not executed | AuthController.AnonymousAdminKey | AuthController.GuardedKeyNeedsAdmin |
| src/user/auth/auth.controller.ts:63-72 | the product key is the bcrypt digest of `email-role-secret` with the secret last, and bcryptjs reads only the first 72 bytes of its input; for a long e-mail the secret, and from 71 characters on the role too, fall outside the digest | an e-mail of 65 or more characters that passes `@IsEmail()` (64 letters, then `@ex.com`); the digest of `email-ADMIN-`, computed by the client without the secret, opens `signup/ADMIN` | a product key depends on the secret and on the role; a key text that bcrypt would cut is refused | not executed | AuthController.SecretlessAdminKey | AuthController.BoundProductKeyGate |
