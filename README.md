# INVEST backend: validators, schemas and route handlers

INVEST is an Express/Mongoose backend through which entrepreneurs register,
submit business ideas, and investors file proposals. This project models its
decision logic in Dafny and proves properties of that model:

- **Request validators** (`validateEntrepreneur`, `validateIdea`,
  `validateInvestor`). Each checks the JSON body field by field: required
  fields blank after `trim`, the email pattern, a phone that must keep exactly
  ten digits once non-digits are removed, and a money amount between inclusive
  bounds. It collects every message in a fixed order and rejects with 400 when
  there is one. Otherwise it rewrites the cleaned fields in place and passes
  the body on. Trimming a field sent as a number throws, and Express answers
  500. The model has this as the `Crashed` verdict.
- **Schemas** (`entrepreneurSchema`, `ideaSchema`, `investorSchema`). A body is
  cast onto a document: `toString` or `Number(...)` casts, then the `trim` and
  `lowercase` setters, then defaults for absent enum paths. The validators are
  `required`, `maxLength`, `match`, `enum`, `min` and `max`. Each path reports
  its first failing validator.
- **Route handlers**:
  - `POST /register` and `POST /proposals` run the validator, then refuse an
    email that is already stored, then save;
  - `POST /submit` runs the validator and saves with no duplicate check;
  - the three `GET /` handlers build a filter (range bounds only when given,
    case-insensitive patterns, exact enum matches, a default idea status), parse
    `sort`, and paginate with `skip = (page - 1) * limit` and
    `pages = ceil(total / limit)`.

Files, one module each:

| file | module | models |
|---|---|---|
| js.dfy | Js | JSON values, JavaScript numbers (NaN, infinities), truthiness, the runtime's conversions |
| text.dfy | Text | `trim`, `replace(/\D/g, '')`, `toLowerCase` on ASCII |
| email.dfy | Email | the email pattern: a grammar, a character-level check, and a proof that both accept the same strings |
| validation.dfy | Validation | `api/middleware/validation.js` |
| schema.dfy | Schema | the Mongoose casts and validators the three schemas use |
| entrepreneur_model.dfy | EntrepreneurModel | `api/models/Entrepreneur.js` |
| idea_model.dfy | IdeaModel | `api/models/idea.js` |
| investor_model.dfy | InvestorModel | `api/models/investor.js` |
| store.dfy | Store | a collection: `findOne` and `save` |
| listing.dfy | Listing | what the three `GET /` handlers share: range filters, `sort`, pagination |
| replies.dfy | Replies | the POST replies and their status codes |
| register.dfy | EntrepreneurRoutes | `api/entrepreneurs/register.js` |
| proposals.dfy | InvestorRoutes | `api/investors/proposals.js` |
| submit.dfy | IdeaRoutes | `api/ideas/submit.js` |

The validators are methods that append to a message sequence step by step.
Each is proved against the function that lists the messages in check order.
The collection is a class whose `docs` field `save()` appends to. The POST
handlers are methods on that class, proved against ghost predicates. Those
predicates state the reply and the new contents. Two invariants are proved
preserved by every POST: every stored document meets its schema, and for
entrepreneurs and investors no two stored documents share an email. The
schemas and the GET filters and pagination are pure functions.

## Model

| member | source | states |
|---|---|---|
| Js.WithinIff | api/middleware/validation.js:43-46 | The validator's two tests pass exactly for a finite amount in the closed interval. The tests are "not NaN and not below the minimum", then "not above the maximum". Mongoose's `min`/`max` pair accepts the same amounts. |
| Text.Trim | api/middleware/validation.js:6 | `trim` returns a stretch of the input with only white space before and after it, and none at its own ends. It is empty exactly when every character is white space. |
| Text.TrimUnique | api/middleware/validation.js:6 | Any stretch of the input with only white space around it and none at its own ends is what `trim` returns, so the contract of `Trim` determines it. |
| Text.TrimmedFixed | api/models/Entrepreneur.js:8 | A string with no white space at either end is left unchanged by `trim`. |
| Text.TrimIdempotent | api/models/Entrepreneur.js:8 | Trimming an already trimmed value changes nothing. |
| Text.Digits | api/middleware/validation.js:13 | Only digits remain. A string of digits is unchanged, and one with no digits becomes empty. |
| Text.DigitsAppend | api/middleware/validation.js:13 | Removing non-digits distributes over concatenation. |
| Text.CleanPhoneIff | api/middleware/validation.js:12-15 | The cleaned phone matches `^[0-9]{10}$` exactly when ten digits remain. A blank phone never passes. |
| Text.Lower | api/models/Entrepreneur.js:15 | The `lowercase` setter keeps the length and maps each character on its own: an ASCII capital becomes its own small letter (code point plus 32), and every other character is kept. |
| Email.EmailPatternIff | api/middleware/validation.js:8 | The character-level check accepts exactly the strings the anchored email pattern matches. |
| Email.OneAt | api/middleware/validation.js:8 | An accepted email has an `@` that splits it into an accepted local part and domain, and no other `@`. |
| Email.LowerKeepsValid | api/models/Entrepreneur.js:15-16 | Lowercasing an accepted email keeps it accepted. So the schema's `match`, which runs after the `lowercase` setter, passes. |
| Email.AcceptedExample | api/middleware/validation.js:8 | `a-b@c.com` is accepted. |
| Email.RejectedExample | api/middleware/validation.js:8 | `a@b.info` is rejected, because a final group of four word characters does not match. |
| Validation.RequiredErrors | api/middleware/validation.js:6 | The message is reported exactly when the field is absent or blank after `trim`. |
| Validation.EmailErrors | api/middleware/validation.js:7-10 | At most one message. "Email is required" appears exactly when the email is blank. "Please enter a valid email" appears exactly when it is non-blank and fails the pattern. |
| Validation.PhoneErrors | api/middleware/validation.js:12-15 | At most one message. "Phone is required" appears exactly when the phone is blank after `toString().trim()`. Otherwise the ten-digit message appears exactly when the cleaned phone does not have ten digits. |
| Validation.AmountErrors | api/middleware/validation.js:40-48 | "Required" for a falsy value. Otherwise no message exactly when the parsed amount lies in [lo, hi]. The minimum message for NaN or less than lo, the maximum message for more than hi. |
| Validation.ValidateEntrepreneur | api/middleware/validation.js:2-26 | 500 exactly when name, email or sector is a number, so that `trim` throws. Rejected with every collected message, in check order, exactly when one was collected. Otherwise the body is handed on with only `phone` replaced by its ten digits, and every other key unchanged. |
| Validation.ValidateIdea | api/middleware/validation.js:28-57 | 500 exactly when a trimmed field is a number. Rejected with the messages in check order exactly when there are any. Otherwise only `fundingNeeded` is replaced, by the parsed amount, which lies in [1000, 1e9]. |
| Validation.ValidateInvestor | api/middleware/validation.js:59-94 | 500 exactly when a trimmed field is a number. Rejected with the messages in check order exactly when there are any. Otherwise only `phone` (ten digits) and `investmentCapacity` (the parsed amount, in [10000, 1e10]) are replaced. |
| Validation.CleanEntrepreneur | api/middleware/validation.js:24 | The cleaned body has the same keys and differs at most in `phone`. |
| Validation.CleanIdea | api/middleware/validation.js:55 | The cleaned body has the same keys and differs at most in `fundingNeeded`. |
| Validation.CleanInvestor | api/middleware/validation.js:91-92 | The cleaned body has the same keys and differs at most in `phone` and `investmentCapacity`. |
| Validation.EntrepreneurMessages | api/middleware/validation.js:6-17 | Each message of `validateEntrepreneur` is present exactly when its check fails. The two email messages never appear together. |
| Validation.IdeaMessages | api/middleware/validation.js:32-38 | Each name, title, description and email message of `validateIdea` is present exactly when its check fails. The two email messages never appear together. |
| Validation.IdeaFundingMessages | api/middleware/validation.js:40-48 | The funding messages of `validateIdea` are present exactly for a falsy amount, for NaN or below 1000, and for above 1e9. |
| Validation.InvestorMessages | api/middleware/validation.js:63-67 | The name and email messages of `validateInvestor` are present exactly when their checks fail. The two email messages never appear together. |
| Validation.InvestorContactMessages | api/middleware/validation.js:69-74 | The phone messages and the sector-interest message of `validateInvestor` are present exactly when their checks fail. |
| Validation.InvestorCapacityMessages | api/middleware/validation.js:76-84 | The capacity messages are present exactly for a falsy amount, for NaN or below 10000, and for above 1e10. |
| Validation.AmountBoundaries | api/middleware/validation.js:43-45 | The bounds themselves pass. Infinity gets the maximum message and NaN the minimum message. |
| Validation.EntrepreneurIgnores | api/middleware/validation.js:3 | Changing a field `validateEntrepreneur` does not read, such as `startupStage` or `description`, changes neither the 500 outcome nor the messages. |
| Validation.EntrepreneurPassesOn | api/middleware/validation.js:24 | A field `validateEntrepreneur` does not read is handed on as sent. |
| Validation.IdeaIgnores | api/middleware/validation.js:29 | Changing a field `validateIdea` does not read, such as `status`, changes neither the 500 outcome nor the messages. |
| Validation.IdeaPassesOn | api/middleware/validation.js:55 | A field `validateIdea` does not read is handed on as sent. |
| Validation.InvestorIgnores | api/middleware/validation.js:60 | Changing a field `validateInvestor` does not read changes neither the 500 outcome nor the messages. |
| Validation.InvestorPassesOn | api/middleware/validation.js:91-92 | A field `validateInvestor` does not read is handed on as sent. |
| Validation.AcceptedEmail | api/middleware/validation.js:8 | An accepted email has exactly one `@`. Its domain ends in a `.` followed by two or three word characters. |
| Schema.StringPath | api/models/Entrepreneur.js:6-8 | A String path has a value exactly when the body has the key. The value is the sent value as text, with the path's setter applied. |
| Schema.NumberPath | api/models/idea.js:22-27 | An absent value or `''` leaves a Number path unset. A number other than NaN is kept as it is. NaN is a cast failure, and a cast value is never NaN. |
| Schema.RequiredCheck | api/models/Entrepreneur.js:7 | `required` on a String path passes exactly for a non-empty string. Otherwise it reports the declared message. |
| Schema.MaxLengthCheck | api/models/Entrepreneur.js:9 | `maxLength` passes exactly for an absent value or one no longer than the limit. |
| Schema.EmailCheck | api/models/Entrepreneur.js:16 | `match` with the email pattern passes exactly for an absent or empty value, or one the pattern accepts. |
| Schema.PhoneCheck | api/models/Entrepreneur.js:21 | `match` with `^[0-9]{10}$` passes exactly for an absent or empty value, or ten digits. |
| Schema.EnumCheck | api/models/Entrepreneur.js:25 | `enum` passes exactly for an absent value or a listed one. Otherwise it reports Mongoose's enum message. |
| Schema.AmountCheck | api/models/idea.js:24-26 | On a required Number path a cast failure is reported first, then "required", then `min`, then `max`. The path passes exactly for a cast value in [min, max]. |
| Schema.FirstOf | api/models/Entrepreneur.js:6-9 | A path reports its first failing validator: the first one's error when it fails, otherwise the second one's result. It reports nothing only when both pass. |
| Schema.BoundedText | api/models/idea.js:5-21 | A required String path with a `maxLength` passes exactly for a non-empty value within the limit. An absent or empty value reports the `required` message, a longer one the length message. |
| Schema.NamePathError | api/models/Entrepreneur.js:5-10 | The `name` path of the entrepreneur and investor schemas passes exactly for a non-empty name of at most 100 characters. A present, non-empty name can only fail on its length. |
| Schema.EmailPathError | api/models/Entrepreneur.js:11-17 | The `email` path of all three schemas passes exactly for a present email that matches the pattern. An absent or empty one reports "Email is required". |
| Schema.PhonePathError | api/models/Entrepreneur.js:18-22 | The `phone` path of the entrepreneur and investor schemas passes exactly for ten digits. An absent or empty one reports "Phone number is required". |
| Schema.Messages | api/entrepreneurs/register.js:33 | One message per schema error, in order. |
| EntrepreneurModel.FromBody | api/models/Entrepreneur.js:4-36 | A path has a value exactly when the body has its key. `name` and `sector` have no white space at either end, so `trim` leaves them unchanged. `email` holds no uppercase letter. |
| EntrepreneurModel.WithDefaults | api/models/Entrepreneur.js:23-27 | An absent `startupStage` becomes "Idea Stage". Nothing else changes. |
| EntrepreneurModel.StageError | api/models/Entrepreneur.js:23-27 | No error exactly when `startupStage` is absent or one of the six stages. |
| EntrepreneurModel.SectorError | api/models/Entrepreneur.js:28-32 | No error exactly when the sector is present and non-empty. |
| EntrepreneurModel.DescriptionError | api/models/Entrepreneur.js:33-36 | No error exactly when the description is absent or at most 1000 characters. |
| EntrepreneurModel.Errors | api/models/Entrepreneur.js:4-36 | `save()` reports no error exactly when no path reports one. |
| EntrepreneurModel.Valid | api/models/Entrepreneur.js:4-36 | The schema's declared constraints, path by path: required name, email, phone and sector, the length limits, the email and phone patterns and the stage enum. |
| EntrepreneurModel.ErrorsIffValid | api/models/Entrepreneur.js:4-36 | `save()` reports no error exactly when the document meets every declared constraint. |
| EntrepreneurModel.DefaultedStage | api/models/Entrepreneur.js:23-27 | A saved entrepreneur's stage is one of the six, and "Idea Stage" when none was sent. |
| EntrepreneurModel.FromBodyIgnores | api/models/Entrepreneur.js:4-39 | Keys that are neither a declared path nor one of the implicit `_id`, `__v`, `createdAt` and `updatedAt` paths do not affect the document. |
| EntrepreneurModel.AcceptedPaths | api/models/Entrepreneur.js:5-32 | After an accepted body is cast, the document holds a trimmed non-empty name and sector, the valid lowercased email, and the ten cleaned phone digits. |
| EntrepreneurModel.RemainingErrors | api/models/Entrepreneur.js:5-36 | With name, email, phone and sector well formed, only a length or enum error can remain. |
| EntrepreneurModel.AcceptedBodyMeetsSchema | api/middleware/validation.js:6-24 | A body `validateEntrepreneur` accepts meets the schema's required, email and phone constraints. `save()` can only still fail on a long name or description, or an unknown stage. |
| IdeaModel.FromBody | api/models/idea.js:4-39 | A String path has a value exactly when the body has its key, and `fundingNeeded` is unset exactly when absent or `''`. Name and title have no white space at either end, and the email holds no uppercase letter. |
| IdeaModel.WithDefaults | api/models/idea.js:34-38 | An absent `status` becomes "Submitted". Nothing else changes. |
| IdeaModel.NameError | api/models/idea.js:5-10 | No error exactly when the entrepreneur name is present and non-empty, and at most 100 characters. |
| IdeaModel.TitleError | api/models/idea.js:11-16 | No error exactly when the title is present, non-empty and at most 200 characters. |
| IdeaModel.DescriptionError | api/models/idea.js:17-21 | No error exactly when the description is present and non-empty, and at most 2000 characters. |
| IdeaModel.FundingError | api/models/idea.js:22-27 | No error exactly when `fundingNeeded` casts to a number in [1000, 1e9]. |
| IdeaModel.StatusError | api/models/idea.js:34-38 | No error exactly when `status` is absent or one of the four statuses. |
| IdeaModel.Errors | api/models/idea.js:4-39 | `save()` reports no error exactly when no path reports one. |
| IdeaModel.Valid | api/models/idea.js:4-39 | The schema's declared constraints, path by path: required name, title, description, funding and email, the length limits, the funding bounds, the email pattern and the status enum. |
| IdeaModel.ErrorsIffValid | api/models/idea.js:4-39 | `save()` reports no error exactly when the document meets every declared constraint. |
| IdeaModel.DefaultedStatus | api/models/idea.js:34-38 | A saved idea's status is one of the four, and "Submitted" when none was sent. |
| IdeaModel.FromBodyIgnores | api/models/idea.js:4-41 | Keys that are neither a declared path nor one of the implicit `_id`, `__v`, `createdAt` and `updatedAt` paths do not affect the document. |
| IdeaModel.AcceptedPaths | api/models/idea.js:5-33 | After an accepted body is cast, the document holds trimmed non-empty name and title, a non-empty description, the valid lowercased email, and the parsed funding in [1000, 1e9]. |
| IdeaModel.RemainingErrors | api/models/idea.js:5-38 | With the required paths well formed, only a length or status error can remain. |
| IdeaModel.AcceptedBodyMeetsSchema | api/middleware/validation.js:32-55 | A body `validateIdea` accepts meets the schema's required, funding and email constraints. `save()` can only still fail on a length or an unknown status. |
| InvestorModel.FromBody | api/models/investor.js:4-44 | A String path has a value exactly when the body has its key, and `investmentCapacity` is unset exactly when absent or `''`. Name and sector interest have no white space at either end, and the email holds no uppercase letter. |
| InvestorModel.WithDefaults | api/models/investor.js:34-43 | An absent `investmentType` becomes "Any" and an absent `riskTolerance` "Medium". Nothing else changes. |
| InvestorModel.CapacityError | api/models/investor.js:23-28 | No error exactly when `investmentCapacity` casts to a number in [10000, 1e10]. |
| InvestorModel.SectorError | api/models/investor.js:29-33 | No error exactly when the sector interest is present and non-empty. |
| InvestorModel.InvestmentTypeError | api/models/investor.js:34-38 | No error exactly when `investmentType` is absent or one of the six types. |
| InvestorModel.RiskError | api/models/investor.js:39-43 | No error exactly when `riskTolerance` is absent or Low, Medium or High. |
| InvestorModel.Errors | api/models/investor.js:4-44 | `save()` reports no error exactly when no path reports one. |
| InvestorModel.Valid | api/models/investor.js:4-44 | The schema's declared constraints, path by path: required name, email, phone, capacity and sector interest, the name length, the patterns, the capacity bounds and the two enums. |
| InvestorModel.ErrorsIffValid | api/models/investor.js:4-44 | `save()` reports no error exactly when the document meets every declared constraint. |
| InvestorModel.DefaultedEnums | api/models/investor.js:34-43 | A saved investor's type and risk tolerance come from their enums, and are "Any" and "Medium" when not sent. |
| InvestorModel.FromBodyIgnores | api/models/investor.js:4-46 | Keys that are neither a declared path nor one of the implicit `_id`, `__v`, `createdAt` and `updatedAt` paths do not affect the document. |
| InvestorModel.AcceptedPaths | api/models/investor.js:5-33 | After an accepted body is cast, the document holds trimmed non-empty name and sector interest, the valid lowercased email, the ten cleaned phone digits, and the parsed capacity in [10000, 1e10]. |
| InvestorModel.RemainingErrors | api/models/investor.js:5-43 | With the required paths well formed, only a length or enum error can remain. |
| InvestorModel.AcceptedBodyMeetsSchema | api/middleware/validation.js:69-92 | A body `validateInvestor` accepts and cleans satisfies the investor schema's phone pattern, capacity bounds and email constraint. Only a long name or an unknown enum value can still fail. |
| Store.Collection.Insert | api/entrepreneurs/register.js:20 | `save()` appends the document and returns its position as its id. |
| Store.FindFirst | api/entrepreneurs/register.js:11 | `findOne` returns the first matching document. It returns nothing exactly when no document matches. |
| Listing.BuildRange | api/investors/proposals.js:59-63 | A range filter exists exactly when a bound is given. `$gte` is present exactly when the minimum is given and `$lte` exactly when the maximum is, each the parsed parameter. |
| Listing.ParseSort | api/investors/proposals.js:69-70 | The order is 1 or -1, and -1 exactly when `sort` starts with `-`. The default is `createdAt` ascending. |
| Listing.SortRoundTrip | api/investors/proposals.js:69-70 | The parsed field and order give back the `sort` parameter. |
| Listing.SortTextParses | api/investors/proposals.js:69-70 | Every descending sort, and every ascending sort on a field not starting with `-`, parses back from its text. |
| Listing.LimitOf | api/investors/proposals.js:52 | `limit` is 50 when the parameter is absent, and the given value otherwise. |
| Listing.PageNumberOf | api/investors/proposals.js:53 | `page` is 1 when the parameter is absent, and the given value otherwise. |
| Listing.SkipOf | api/investors/proposals.js:74 | With a positive limit, `skip = (page - 1) * limit` is negative exactly when the page is below 1. |
| Listing.PageCount | api/investors/proposals.js:84 | `ceil(total / limit)` is the fewest pages of `limit` documents holding `total`. It is zero exactly when nothing matches. |
| Listing.PageOf | api/investors/proposals.js:73-74 | At most `limit` documents, the ones that follow the first `skip`, in order. |
| Listing.FirstPagesPrefix | api/investors/proposals.js:73-74 | Pages 1 to n, read one after the other, are the first n * limit documents. |
| Listing.PagesPartition | api/investors/proposals.js:73-84 | Together the `pages` pages hold every matching document once, in order. Any later page is empty. |
| Listing.List | api/investors/proposals.js:72-86 | A page below 1 fails with 500, from the negative `skip`. Otherwise the reply holds exactly the page: the documents from `skip` on, up to `limit` of them, in order, with the total, the page and the page count. |
| Listing.FirstFifty | api/investors/proposals.js:52-53 | With neither `limit` nor `page` given, the reply is page 1: the first 50 matches, or all of them when fewer. |
| Replies.Status | api/entrepreneurs/register.js:13-36 | 201 exactly for a creation, 500 exactly for a server error, and 400 for a validation failure or a duplicate email. |
| EntrepreneurRoutes.Register | api/entrepreneurs/register.js:8-38 | A body failing `validateEntrepreneur` gets its 400 or 500 and never reaches the store. Otherwise the handler runs on the cleaned body. The reply is 201 exactly when one document was added, the store changes only then, and it keeps every document valid and every email unique. |
| EntrepreneurRoutes.Admit | api/entrepreneurs/register.js:11-17 | A stored email, compared after lowercasing, gives 400 "already exists" and leaves the store unchanged. Otherwise the document is saved. |
| EntrepreneurRoutes.Save | api/entrepreneurs/register.js:19-35 | Schema errors give 400 with their messages and no insert. Otherwise exactly one valid document is appended, and the 201 reply echoes its id, name and email. |
| EntrepreneurRoutes.HasEmail | api/entrepreneurs/register.js:11 | `findOne({ email })` matches a document whose stored email is the lowercased request email, since the filter value passes through the path's `lowercase` setter. |
| EntrepreneurRoutes.NewEmailKeepsUnique | api/models/Entrepreneur.js:14 | Appending an entrepreneur whose email no stored one has keeps emails unique. |
| EntrepreneurRoutes.AppendKeepsValid | api/entrepreneurs/register.js:20 | Appending a valid document keeps every stored document valid. |
| EntrepreneurRoutes.SecondRegistrationRefused | api/entrepreneurs/register.js:11-17 | Once a body is registered, the same email in any mix of case is found by the duplicate gate. |
| EntrepreneurRoutes.QueryFor | api/entrepreneurs/register.js:44-47 | Building the filter fails exactly when `sector` is given and is not a valid pattern. Otherwise the filter has a case-insensitive `sector` pattern exactly when `sector` is given, and an exact `startupStage` exactly when `stage` is given. |
| EntrepreneurRoutes.ListEntrepreneurs | api/entrepreneurs/register.js:41-67 | With queries that do not fail, the reply is 500 exactly when the `sector` pattern is invalid or the page is below 1. Otherwise it is the listing of what the filter built by `QueryFor` matches, newest first. |
| InvestorRoutes.Propose | api/investors/proposals.js:8-41 | A body failing `validateInvestor` gets its 400 or 500 and never reaches the store. Otherwise the handler runs on the cleaned body. The reply is 201 exactly when one document was added, the store changes only then, and it keeps every document valid and every email unique. |
| InvestorRoutes.Admit | api/investors/proposals.js:11-17 | A stored email, compared after lowercasing, gives 400 "already exists" and leaves the store unchanged. Otherwise the document is saved. |
| InvestorRoutes.Save | api/investors/proposals.js:21-38 | Schema errors give 400 with their messages and no insert. Otherwise exactly one valid document is appended, and the 201 reply echoes its id, name, email and capacity. |
| InvestorRoutes.HasEmail | api/investors/proposals.js:11 | `findOne({ email })` matches a document whose stored email is the lowercased request email, since the filter value passes through the path's `lowercase` setter. |
| InvestorRoutes.NewEmailKeepsUnique | api/models/investor.js:14 | Appending an investor whose email no stored one has keeps emails unique. |
| InvestorRoutes.AppendKeepsValid | api/investors/proposals.js:22 | Appending a valid document keeps every stored document valid. |
| InvestorRoutes.SecondProposalRefused | api/investors/proposals.js:11-17 | Once a body is stored, the same email in any mix of case is found by the duplicate gate. |
| InvestorRoutes.IsFilterFor | api/investors/proposals.js:57-67 | A capacity range exactly when a bound is given, each given bound parsed; a `sectorInterest` pattern exactly when `sector` is given; exact `investmentType` and `riskTolerance` matches exactly when given. |
| InvestorRoutes.FilterIsUnique | api/investors/proposals.js:57-67 | The query string determines the filter: two filters that both fit it are equal. |
| InvestorRoutes.BuildQuery | api/investors/proposals.js:57-67 | Building the filter fails exactly when `sector` is given and is not a valid pattern. Otherwise the filter is the one `IsFilterFor` describes. |
| InvestorRoutes.ListInvestors | api/investors/proposals.js:44-91 | With queries that do not fail, the reply is 500 exactly when the `sector` pattern is invalid or the page is below 1. Otherwise the query string has a filter, and the reply is the listing of what the query string's filter matches, in the order `ParseSort` reads from `sort`. |
| IdeaRoutes.Submit | api/ideas/submit.js:8-29 | A body failing `validateIdea` gets its 400 or 500 and never reaches the store. There is no duplicate check: a body the schema accepts adds exactly one idea. The reply is 201 exactly when one idea was added, the store changes only then, and it keeps every document valid. |
| IdeaRoutes.Save | api/ideas/submit.js:10-26 | Schema errors give 400 with their messages and no insert. Otherwise exactly one valid idea is appended, and the 201 reply echoes its id, `ideaTitle` as title and `entrepreneurName` as entrepreneur. |
| IdeaRoutes.AppendKeepsValid | api/ideas/submit.js:11 | Appending a valid idea keeps every stored idea valid. |
| IdeaRoutes.AcceptedIdeaStored | api/ideas/submit.js:10-11 | A body `validateIdea` accepts is stored exactly when the name is at most 100 characters, the title at most 200, the description at most 2000, and the status is a listed one. |
| IdeaRoutes.IsFilterFor | api/ideas/submit.js:44-53 | A funding range exactly when a bound is given, each given bound parsed; an `entrepreneurName` pattern exactly when `entrepreneur` is given; the status "Submitted" when `status` is absent, none when it is empty, the given one otherwise. |
| IdeaRoutes.FilterIsUnique | api/ideas/submit.js:44-53 | The query string determines the filter: two filters that both fit it are equal. |
| IdeaRoutes.BuildQuery | api/ideas/submit.js:44-53 | Building the filter fails exactly when `entrepreneur` is given and is not a valid pattern. Otherwise the filter is the one `IsFilterFor` describes. |
| IdeaRoutes.ListIdeas | api/ideas/submit.js:32-77 | With queries that do not fail, the reply is 500 exactly when the `entrepreneur` pattern is invalid or the page is below 1. Otherwise the query string has a filter, and the reply is the listing of what the query string's filter matches, in the order `ParseSort` reads from `sort`. |

## Left out

- Request bodies are maps from keys to strings or numbers. `null`, booleans, objects and arrays are not modelled, and neither are array-valued query parameters.
- `parseFloat`, `Number.prototype.toString` and Mongoose's `Number(...)` cast are parameters that the model never interprets. Prefix parsing such as `"5000abc"` becomes 5000, and this and other IEEE-754 details are not modelled.
- `parseInt(limit)` and `parseInt(page)` are taken as already-parsed integers. A non-numeric value, which gives NaN, is not modelled.
- Listing.List: requires `limit >= 1`. The source does not check this: `limit(0)` means no limit to MongoDB and gives `pages = Infinity`, or NaN when nothing matches; a negative limit is not modelled either.
- Listing.List: a page below 1 gives a negative `skip`, which MongoDB rejects, so the model answers 500. The driver's exact error is not modelled.
- Query execution is not modelled. `find` and `countDocuments` are represented by a function `find(filter, order)` passed to the GET handlers: the documents the filter matches, in that order. `List` receives its result as `found`.
- The regular-expression semantics of the `new RegExp(text, 'i')` filters are not modelled. Whether `new RegExp` accepts a text or throws a SyntaxError is the runtime parameter `validPattern`. Sorting by the chosen field, and the `createdAt`/`updatedAt` timestamps, are not stored or compared. The entrepreneur listing's fixed newest-first order is the constant `EntrepreneurRoutes.Order`.
- MongoDB's unique index is not modelled. The handlers run one at a time, so the explicit `findOne` gate is what keeps emails unique. The race between `findOne` and `save` under concurrent requests is not modelled.
- Failures of `find` and `countDocuments` in the `GET /` handlers other than the negative `skip` are not modelled: a lost connection, or a sort key MongoDB refuses, such as the empty field that `?sort=` or `?sort=-` gives, would also reach the `catch` and answer 500. The model's `find` always answers.
- Failures of `save()` other than a ValidationError, such as a lost connection or a duplicate-key error, are not modelled. The only 500 on the POST routes is the validator's TypeError.
- Express's default error handler, which answers the TypeError from `trim` on a number, is summarised as a bare 500 with no body.
- A document's `_id` is modelled as its position in the collection, not an ObjectId.
- EntrepreneurModel.FromBody, IdeaModel.FromBody, InvestorModel.FromBody: the implicit paths `_id`, `__v`, `createdAt` and `updatedAt` are dropped from the body. Mongoose casts a value sent for them: a bad one makes `save()` fail with a ValidationError, so the source answers 400 where the model saves, and a valid `_id` or timestamp is kept where the model ignores it.
- `console.log` and `console.error` calls are left out.
- String lengths count characters, not UTF-16 code units. `trim` uses JavaScript's white-space set. `toLowerCase` is modelled on ASCII letters only.
- Schema.Messages: gives the messages in the schema's path order. Mongoose builds `err.errors` as validators finish, which can order the messages differently. The set of paths with errors is the same.
- Schema.AmountCheck: the cast message is simplified to `Cast to Number failed for value "X" (type string|number) at path "p"`. Mongoose's own quoting of the value may differ.
- The React front end, `server.js`, `api/routes/summary.js` and authentication are not part of this model.
