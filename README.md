# Subscription and quota core of the tax.ai account service

This project models the account service of the tax.ai backend in Dafny:

- the account document with its embedded subscription and payment records, as the Mongoose schema defines them (enumerations, defaults, setters, the pre-save password hashing, the quota counter);
- the plan catalog, registration and the profile update of the authentication routes;
- payment-intent pricing, payment confirmation and the payment history of the payment routes;
- the request validators of the validation middleware.

Time is an integer count of milliseconds. `setDate(getDate() + d)` adds `d * 86 400 000`. The password hash (bcrypt), e-mail syntax checks (`isEmail`, `normalizeEmail` and the schema's e-mail pattern) and the payment provider's answer are parameters of the operations that use them. The account collection is a `UserStore` class whose `users` map is keyed by the stored e-mail.

Modules and files:

- `wrappers.dfy`: `Option`, `Result`, `Outcome` and `Field`. `Field` separates a JSON member that is absent (`undefined`) from one that is `null`.
- `http.dfy`: request body fields, validation errors and HTTP error answers.
- `js_text.dfy`: JavaScript white space, `trim()` and ASCII lower-casing.
- `user_model.dfy`: `models/User.js`.
- `validation.dfy`: `middleware/validation.js`.
- `auth_routes.dfy`: `routes/auth.js`.
- `payment_routes.dfy`: `routes/payment.js`.

Points where the code's behaviour is easy to misread:

- Stored payment amounts are in dollars (99, 250, 899). Only the amount sent to the payment provider is in cents.
- `callSeconds` is never set by any route, so every subscription carries the schema default of 180 seconds.
- Registration creates the account directly. There is no placeholder or e-mail verification step.
- The password rule `^(?=.*[a-z])(?=.*[A-Z])(?=.*\d)` is modelled with JavaScript's `.`. That `.` does not cross a line terminator, so the three character classes must all occur before the first line break (`Validation.PasswordPatternStopsAtLineBreak`).
- `/confirm-payment` looks only at the retrieved intent's status (routes/payment.js:59-61). It never compares the intent's amount, its `metadata.subscriptionType` or its `metadata.userId` with the request. So an intent that succeeded for the monthly plan can confirm the yearly plan, and one intent id can be sent again to refill the quota. The model keeps this: `PaymentRoutes.PostConfirmPayment` takes the intent's status and the requested plan independently.

## Model

| member | source | states |
|---|---|---|
| UserModel.PlanTypeName | models/User.js:23-27 | every plan type is named by a member of the `type` enumeration |
| UserModel.ParsePlanType | models/User.js:23-27 | a string is accepted as `type` iff it is one of monthly, quarterly, yearly, trial, and it then decodes to the type of that name |
| UserModel.PlanTypeRoundTrip | models/User.js:23-27 | decoding the name of a plan type gives back that type |
| UserModel.StatusName | models/User.js:28-32 | every status is named by a member of the `status` enumeration |
| UserModel.ParseStatus | models/User.js:28-32 | a string is accepted as `status` iff it is active, expired or pending, and it decodes to the status of that name |
| UserModel.AddDays | routes/auth.js:77-78 | adding a number of days never moves a time back, and adding a positive number moves it forward |
| UserModel.ActiveMeansStatusAndDate | models/User.js:116-118 | a subscription is active at a time iff its status is `active` and the time is before its end date; a pending or expired one never is |
| UserModel.CastPayment | models/User.js:4-20 | casting a payment: `method` defaults to credit_card; `lastPaymentDate` defaults to now when left out and stays null when given as null; amount and next payment date are kept |
| UserModel.CastSubscription | models/User.js:22-55 | casting a subscription fails iff `type` or a given `status` is outside its enumeration; otherwise status defaults to pending, callSeconds to 180, startDate to now, the counters and end date are kept, and the payment is cast iff given |
| UserModel.Decremented | models/User.js:126-132 | with a positive remaining count the count is lowered by exactly one and nothing else changes; at zero or below the call fails with "No messages remaining"; `0 <= remaining <= limit` is preserved |
| UserModel.AttemptsStopAtZero | models/User.js:127-131 | from a non-negative count `n`, `k` decrement attempts leave `max(n - k, 0)` and never a negative count, exactly `min(k, n)` succeed, only the count changes, and the quota invariant holds throughout |
| UserModel.StoredPassword | models/User.js:98-104 | a save stores the hash of the password when it was modified and leaves it alone otherwise |
| UserModel.User.constructor | models/User.js:57-95 | a new account stores the trimmed name and job title and the trimmed lower-cased e-mail, the password as given and marked modified, language null, and trialUsed defaulting to false |
| UserModel.User.Save | models/User.js:97-108 | the pre-save hook hashes the password iff it was modified, and afterwards the password no longer counts as modified, so it is hashed once |
| UserModel.User.IsSubscriptionActive | models/User.js:115-118 | the account's subscription is active iff its status is `active` and now is before its end date |
| UserModel.User.GetRemainingMessages | models/User.js:120-123 | returns the subscription's remaining count without changing anything; under the quota invariant it lies between 0 and the limit |
| UserModel.User.DecrementMessageCount | models/User.js:125-132 | with messages left, lowers the remaining count by exactly one and saves; otherwise fails with "No messages remaining" and changes nothing; the other account fields never change |
| UserModel.StoredEmail | models/User.js:63-69 | the stored e-mail is the trimmed, lower-cased input: no upper-case ASCII letter and no white space at either end |
| UserModel.StoredEmailIdempotent | models/User.js:66-68 | storing an already stored e-mail does not change it |
| UserModel.SchemaValid | models/User.js:58-80 | the document checks the modelled saves can fail: a non-empty name, e-mail and job title after the setters, an e-mail the schema's pattern accepts, and a password of at least 6 characters |
| UserModel.UserStore.constructor | models/User.js:134 | an empty account collection, every account filed under its own e-mail |
| UserModel.UserStore.Insert | models/User.js:66 | saving a new account whose e-mail is not yet taken files it under that e-mail and keeps every other account where it was |
| UserModel.UserStore.FindOne | routes/auth.js:58 | an account is found iff one is filed under the stored form of the e-mail, and it is that account |
| UserModel.UserStore.FoundUnderStoredEmail | models/User.js:63-68 | in a consistent collection a found account's e-mail is the stored form of the address asked for, and asking with the stored form finds the same account |
| JsText.LeadingSpace | models/User.js:61 | counts exactly the white space before the first other character |
| JsText.TrailingSpace | models/User.js:61 | counts exactly the white space after the last other character |
| JsText.Trim | middleware/validation.js:5 | `trim()` returns the part of the string between its blank margins: everything cut off is white space and the result neither starts nor ends with white space |
| JsText.TrimUnique | middleware/validation.js:5 | any piece of a string with blank margins around it and no white space at its ends is what `trim()` returns |
| JsText.TrimIdempotent | models/User.js:58-62 | trimming a trimmed value changes nothing, so the validator's trim and the schema's trim setter agree |
| JsText.TrimPadded | middleware/validation.js:5 | padding a string with white space on both sides does not change what it trims to |
| JsText.AsciiLower | models/User.js:67 | lower-cases the letters A-Z and leaves every other character alone |
| JsText.LowerCase | models/User.js:67 | applies ASCII lower-casing to every character, keeps the length, and leaves no upper-case ASCII letter |
| JsText.LowerCaseTrimCommute | models/User.js:63-68 | the `lowercase` and `trim` setters give the same result in either order |
| Validation.NameOk | middleware/validation.js:4-7 | a name passes iff, after trimming, it has 2 to 50 characters |
| Validation.JobTitleOk | middleware/validation.js:20-23 | a job title passes iff, after trimming, it has 2 to 100 characters |
| Validation.PasswordLengthOk | middleware/validation.js:14-16 | a password passes the length check iff it has at least 6 characters |
| Validation.PasswordPatternOk | middleware/validation.js:17 | the three look-aheads: a lower-case letter, an upper-case letter and a digit each occur in the password's first line |
| Validation.FirstLine | middleware/validation.js:17 | the part of the password the regular expression's `.` can scan: a prefix with no line terminator that is followed by one or by the end |
| Validation.PasswordPatternOnOneLine | middleware/validation.js:17 | for a password without line breaks, the rule holds iff the password contains a lower-case letter, an upper-case letter and a digit |
| Validation.FirstLineEndsAt | middleware/validation.js:17 | the first line ends at the first line terminator, or at the end of the string if there is none |
| Validation.PasswordPatternStopsAtLineBreak | middleware/validation.js:17 | "A\nbcdef1" is long enough and contains a capital, a small letter and a digit, yet the rule refuses it because its first line is "A" |
| Validation.Failures | middleware/validation.js:39-41 | a validation chain records no error iff every one of its validators passes |
| Validation.FailureNotRecorded | middleware/validation.js:39-41 | an error that no validator of the chain produces is never among its recorded errors |
| Validation.FailureRecorded | middleware/validation.js:39-41 | a validator whose error no other validator shares has that error recorded iff its check fails |
| Validation.ValidateRegistration | middleware/validation.js:3-28 | the error list is empty iff every field passes; each error is present iff its check fails: trimmed name 2..50 characters, e-mail accepted, password at least 6 characters, password pattern, trimmed job title 2..100 characters, type one of the four plans; the body passed on has the trimmed name and job title and the normalized e-mail |
| Validation.RegistrationErrors | middleware/validation.js:3-28 | the registration chain's errors are empty iff all six checks pass, and each check's error is present iff that check failed |
| Validation.ValidatePayment | middleware/validation.js:30-37 | errors are empty iff the type is monthly, quarterly or yearly and the intent id is non-empty; each error is present iff its check fails; the body is passed on unchanged |
| Validation.PaymentTypesAreRegistrationTypesButTrial | middleware/validation.js:25-33 | the types payment accepts are exactly the registration types without trial |
| Validation.HandleValidationErrors | middleware/validation.js:39-48 | with no errors control passes on; with any, the answer is 400 "Validation failed" carrying exactly those errors |
| AuthRoutes.PlansCoverPlanTypes | routes/auth.js:64-69 | the registration plan ids are exactly the `type` enumeration |
| AuthRoutes.PlanListings | routes/auth.js:9-50 | the `/plans` listing offers each plan of the registration table exactly once, with the table's quota, duration and price |
| AuthRoutes.LookupPlan | routes/auth.js:64-74 | a plan is found iff the type is one of the four plan ids, and it is that table row |
| AuthRoutes.PlanRegistration | routes/auth.js:63-104 | an unknown type is rejected with 400 "Invalid subscription type"; otherwise: the status is active iff trial and pending otherwise; limit = remaining = the plan quota; callSeconds 180; start now and end after the plan's duration; no payment iff trial, else an unpaid credit-card payment of the plan price due at the end date; trialUsed iff trial |
| AuthRoutes.RegisteredActivity | routes/auth.js:76-94 | a new trial is active until 14 days after registration and not after; a new paid plan is never active before payment; the quota invariant holds |
| AuthRoutes.Register | routes/auth.js:52-128 | a taken e-mail gives 400 before the plan is looked up; an unknown plan gives 400; a free e-mail with a known plan whose document the schema refuses gives 500 "Server error during registration"; only success adds exactly one fresh account under the stored e-mail, with trimmed name and job title, hashed password and the plan's subscription, which a lookup by the request's e-mail then finds; every failure leaves the store unchanged |
| AuthRoutes.CreateAccount | routes/auth.js:96-106 | the new account carries the trimmed name and job title, the stored e-mail, the hashed password, no language, and the registration's subscription and trialUsed; it is filed under its e-mail and the store stays consistent |
| AuthRoutes.ValidatedTypeHasPlan | routes/auth.js:71-74 | every type the registration validator admits has a plan, so the handler's invalid-type answer cannot follow validation |
| AuthRoutes.PostRegister | routes/auth.js:53 | refused bodies get 400 with the validators' errors and add nothing; a validated body whose normalized e-mail is taken gets 400 "User with this email already exists"; otherwise it is registered iff the schema accepts it, and then exactly one fresh account is added under the stored normalized e-mail, with the trimmed name and job title, the hashed password marked as not modified, no language, and the plan's subscription, trialUsed and requiresPayment, and the response carries the plan's subscription; a validated body with a free e-mail that is not registered gets 500 "Server error during registration" |
| AuthRoutes.UpdatedProfile | routes/auth.js:143-148 | name and job title change only when supplied truthy, and then to the trimmed value; language changes whenever it is defined, to null as well |
| AuthRoutes.UpdatedProfileIdempotent | routes/auth.js:146-148 | applying the same update twice is applying it once, and an update that supplies nothing changes nothing |
| AuthRoutes.UpdateProfile | routes/auth.js:140-166 | applies the guarded update and saves, or answers 500 and changes nothing when a name or job title is empty after trimming; e-mail, subscription and trialUsed are never changed, and the password is only re-hashed if it was modified |
| PaymentRoutes.CreatePaymentIntent | routes/payment.js:16-41 | with no provider key, 500 "Stripe key not set"; an intent is made iff the type is a paid plan, for 100 times that plan's confirmed dollar price (9900, 25000, 89900) in usd; trial and unknown types get 400 "Invalid subscription type" |
| PaymentRoutes.ConfirmPlansAgreeWithRegistration | routes/payment.js:68-72 | the confirmation table is the registration table without trial, row for row |
| PaymentRoutes.PaidSubscription | routes/payment.js:68-91 | a paid plan yields an active subscription with limit = remaining = the table quota, start now, end after the plan's duration, and a credit-card payment of the plan price paid now and next due at the end date; other types yield none |
| PaymentRoutes.ConfirmTwiceSameQuota | routes/payment.js:78-91 | confirming the same plan at any two times gives the same type, status, limit, full remaining count, duration and amount; nothing accumulates |
| PaymentRoutes.ConfirmedActivity | routes/payment.js:78-91 | a confirmed subscription keeps the quota invariant and is active exactly until the plan's duration has passed |
| PaymentRoutes.ConfirmPayment | routes/payment.js:51-103 | without a provider key, 500; a failed retrieval or a plan outside the table, 500 "Error confirming payment"; any status but succeeded, 400 "Payment not completed" with the account unchanged; on success the subscription is replaced wholesale by the paid one and saved; no other account field changes |
| PaymentRoutes.ValidatedPaymentHasPlan | routes/payment.js:74 | every type the payment validator admits has a confirmation plan, so the lookup is always defined |
| PaymentRoutes.PostConfirmPayment | routes/payment.js:52 | refused bodies get 400 with the validators' errors and change nothing; a validated body gets 500 without a provider key, 500 "Error confirming payment" when retrieval fails and 400 "Payment not completed" for any other status, with the account unchanged; a succeeded payment always installs the requested paid plan and saves; name, e-mail, job title, language and trialUsed never change |
| PaymentRoutes.History | routes/payment.js:105-121 | all four history members are absent without a payment; with one, amount and method are its own, the last payment is null when unpaid, and the next payment is absent when unset |
| PaymentRoutes.HistoryThroughLifecycle | routes/payment.js:110-115 | after a trial registration the history is empty; after a paid registration it shows price, credit card, the end date as next payment and a null last payment; after a confirmation the last payment is the confirmation time |

## Left out

- Login, `comparePassword`, JWT issuing (`generateToken`) and the authentication middleware are not part of this model. The account a protected route works on is given directly, so `findById` returning no account is not modelled.
- `GET /profile` is not modelled: it is a read-only lookup with the password projected away.
- The e-mail service, `server.js` (configuration, CORS, rate limiting, database connection) and the test and operations scripts are not part of this model.
- The payment provider's `create` and `retrieve` calls are not modelled; the provider's answer is a parameter. A failing `create` (500 "Error creating payment intent") is not modelled either.
- Bcrypt salting is folded into the `hash` parameter, and `isEmail`, `normalizeEmail` and the schema's e-mail pattern are parameters. Their definitions are not modelled.
- Database failures, the race between the duplicate check and the unique index, and concurrent saves are not modelled. A save always succeeds unless the schema refuses the document.
- Schema validation on save checks only what the modelled routes can break: required and trimmed name and job title; at registration also the e-mail pattern and password length.
- `createdAt`/`updatedAt` timestamps are not modelled.
- Each handler reads the clock once. The source reads it separately for the start date, the end date and the last payment date, so those can differ by milliseconds.
- Calendar effects of `setDate` (daylight saving, time zones) are not modelled; a day is always 86 400 000 ms.
- Request members that are not strings (numbers, arrays, objects) and plan ids such as `constructor` that name inherited object properties are not modelled.
- UserModel.StoredEmail: lower-casing covers ASCII letters only. JavaScript's `toLowerCase` also maps other Unicode letters.
- JsText.LowerCase: maps only A-Z. JavaScript's `toLowerCase` also maps other Unicode letters.
- JsText.AsciiLower: maps only A-Z. JavaScript's `toLowerCase` also maps other Unicode upper-case letters, such as 'Ä' to 'ä'.
- Validation.NameOk: the length counts code points and does not discount the variation selectors U+FE0E and U+FE0F as validator.js does. The name "❤️" (U+2764 U+FE0F) counts 2 here and passes, while the validator counts 1 and refuses it.
- Validation.JobTitleOk: the length counts code points and does not discount U+FE0E and U+FE0F as validator.js does, so a title like "❤️" counts 2 here but 1 in the validator.
- Validation.PasswordLengthOk: the length counts code points and does not discount U+FE0E and U+FE0F as validator.js does. "Aa1" followed by three U+FE0F counts 6 here and passes, while the validator counts 3 and refuses it with "Password must be at least 6 characters long".
- Validation.HandleValidationErrors: each error keeps only the field and the message. The source's `errors.array()` entries also carry the checked value, its location and its path, so a refused password is echoed back in the 400 body.
- Validation.ValidateRegistration: the length checks count code points, as the validator does, but they do not discount the variation selectors U+FE0E and U+FE0F the way the validator does.
- UserModel.SchemaValid: the password `minlength` counts code points, while the schema counts UTF-16 code units. This cannot be observed on a body that passed the registration validator, because 6 code points are always at least 6 code units.
