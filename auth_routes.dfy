/** routes/auth.js: the plan listing, registration and the profile update. */
module AuthRoutes {
  import opened Wrappers
  import opened Http
  import opened JsText
  import opened UserModel
  import opened Validation

  /** The `plans` table of `POST /register`: plan id to quota, days and dollars. */
  const Plans: map<string, Plan> := map[
    "trial" := Plan(50, 14, 0),
    "monthly" := Plan(100, 30, 99),
    "quarterly" := Plan(300, 90, 250),
    "yearly" := Plan(1200, 365, 899)]

  /** The plan ids are exactly the values of the `type` enum. */
  lemma PlansCoverPlanTypes()
    ensures Plans.Keys == PlanTypeNames
  {
  }

  /** An entry of the `GET /plans` listing. */
  datatype PlanListing = PlanListing(id: string, name: string, description: string, price: nat,
                                     messageLimit: nat, duration: nat, features: seq<string>)

  /** `GET /plans`. The listing offers each plan of the registration table
      once, with the same quota, duration and price the registration grants. */
  function PlanListings(): (r: seq<PlanListing>)
    ensures |r| == |Plans|
    ensures forall i :: 0 <= i < |r| ==>
              r[i].id in Plans && Plans[r[i].id] == Plan(r[i].messageLimit, r[i].duration, r[i].price)
    ensures forall id :: id in Plans ==> exists i :: 0 <= i < |r| && r[i].id == id
    ensures forall i, j :: 0 <= i < j < |r| ==> r[i].id != r[j].id
  {
    var r := [ PlanListing("trial", "Free Trial", "14 days free trial with 50 messages", 0, 50, 14,
                  ["50 messages", "14 days", "Full access to features"]),
      PlanListing("monthly", "Monthly Plan", "100 messages per month", 99, 100, 30,
                  ["100 messages", "Monthly billing", "Priority support"]),
      PlanListing("quarterly", "Quarterly Plan", "300 messages for 3 months", 250, 300, 90,
                  ["300 messages", "3 months", "Save 16%", "Priority support"]),
      PlanListing("yearly", "Yearly Plan", "1200 messages for 1 year", 899, 1200, 365,
                  ["1200 messages", "1 year", "Save 24%", "Priority support"]) ];
    assert r[0].id == "trial" && r[1].id == "monthly" && r[2].id == "quarterly" && r[3].id == "yearly";
    r
  }

  /** `plans[subscriptionType]`. */
  function LookupPlan(subscriptionType: string): (r: Option<Plan>)
    ensures r.Some? <==> subscriptionType in PlanTypeNames
    ensures r.Some? ==> r.value == Plans[subscriptionType]
  {
    if subscriptionType in Plans then Some(Plans[subscriptionType]) else None
  }

  /** The subscription object literal `POST /register` writes for a plan
      found in the table, before the schema casts it. */
  function RegistrationLiteral(subscriptionType: string, plan: Plan, now: int): SubscriptionInit {
    var endDate := AddDays(now, plan.duration);
    SubscriptionInit(
      subscriptionType,
      Some(if subscriptionType == "trial" then "active" else "pending"),
      plan.messageLimit, plan.messageLimit, None, Some(now), endDate,
      if subscriptionType == "trial" then None
      else Some(PaymentInit(plan.price, Some("credit_card"), Null, Some(endDate))))
  }

  /** What registration builds beside the account's identity. */
  datatype Registration = Registration(subscription: Subscription, trialUsed: bool, requiresPayment: bool)

  const InvalidTypeMessage := "Invalid subscription type"
  const DuplicateMessage := "User with this email already exists"
  const RegisterFailedMessage := "Server error during registration"

  /** The plan part of `POST /register` at time `now`. An unknown plan id is
      rejected with 400 "Invalid subscription type". For a known one the
      subscription is `active` exactly for the trial and `pending` otherwise;
      its limit and remaining count both equal the plan's quota; it runs from
      `now` for the plan's duration; the trial has no payment and a paid plan
      an unpaid one for the plan's price, due at the end date; `trialUsed`
      holds exactly for the trial and `requiresPayment` exactly for the others. */
  function PlanRegistration(subscriptionType: string, now: int): (r: Result<Registration, HttpError>)
    ensures r.Err? <==> subscriptionType !in Plans
    ensures r.Err? ==> r.error == Error(400, InvalidTypeMessage)
    ensures r.Ok? ==>
              var s := r.value.subscription;
              var plan := Plans[subscriptionType];
              && PlanTypeName(s.planType) == subscriptionType
              && (s.status == Active <==> subscriptionType == "trial")
              && (s.status == Pending <==> subscriptionType != "trial")
              && s.messageLimit == plan.messageLimit && s.remainingMessages == plan.messageLimit
              && s.callSeconds == DefaultCallSeconds
              && s.startDate == now && s.endDate == now + plan.duration * MillisPerDay
              && (s.payment.None? <==> subscriptionType == "trial")
              && (s.payment.Some? ==>
                    s.payment.value == Payment(plan.price, "credit_card", None, Some(s.endDate)))
              && r.value.trialUsed == (subscriptionType == "trial")
              && r.value.requiresPayment == (subscriptionType != "trial")
  {
    match LookupPlan(subscriptionType)
    case None => Err(Error(400, InvalidTypeMessage))
    case Some(plan) =>
      var s := CastSubscription(RegistrationLiteral(subscriptionType, plan, now), now);
      assert s.Ok?;
      Ok(Registration(s.value, subscriptionType == "trial", subscriptionType != "trial"))
  }

  /** A registered trial is active from its start until its end date and then
      no longer; a registered paid plan is not active at any time before its
      payment is confirmed. Either way the quota invariant holds. */
  lemma RegisteredActivity(subscriptionType: string, now: int, t: int)
    requires PlanRegistration(subscriptionType, now).Ok?
    ensures var s := PlanRegistration(subscriptionType, now).value.subscription;
            && QuotaOk(s)
            && (subscriptionType == "trial" ==> (s.IsActive(t) <==> t < now + 14 * MillisPerDay))
            && (subscriptionType != "trial" ==> !s.IsActive(t))
  {
  }

  /** The response of a successful `POST /register` (without its token). */
  datatype RegisterResponse = RegisterResponse(user: User, subscription: Subscription, requiresPayment: bool)

  /** The handler of `POST /register`, on a body its validators passed.
      A taken e-mail is rejected first, then an unknown plan; a document the
      schema refuses is a 500. Only a successful registration adds an account:
      the one new account, filed under the stored e-mail, with the trimmed
      name and job title, the password hashed once, no language, and the
      subscription and `trialUsed` of `PlanRegistration`. */
  method Register(store: UserStore, b: RegistrationBody, emailPattern: string -> bool,
                  now: int, hash: string -> string)
    returns (r: Result<RegisterResponse, HttpError>)
    requires store.Valid()
    modifies store
    ensures store.Valid()
    ensures StoredEmail(b.email) in old(store.users) ==> r == Err(Error(400, DuplicateMessage))
    ensures StoredEmail(b.email) !in old(store.users) && PlanRegistration(b.subscriptionType, now).Err? ==>
              r == Err(PlanRegistration(b.subscriptionType, now).error)
    ensures StoredEmail(b.email) !in old(store.users) && PlanRegistration(b.subscriptionType, now).Ok?
            && !SchemaValid(Trim(b.name), StoredEmail(b.email), b.password, Trim(b.jobTitle), emailPattern) ==>
              r == Err(Error(500, RegisterFailedMessage))
    ensures r.Err? ==> store.users == old(store.users)
    ensures r.Ok? <==>
              && StoredEmail(b.email) !in old(store.users) && PlanRegistration(b.subscriptionType, now).Ok?
              && SchemaValid(Trim(b.name), StoredEmail(b.email), b.password, Trim(b.jobTitle), emailPattern)
    ensures r.Ok? ==>
              var u := r.value.user;
              var reg := PlanRegistration(b.subscriptionType, now).value;
              && fresh(u)
              && store.users == old(store.users)[StoredEmail(b.email) := u]
              && u.name == Trim(b.name) && u.email == StoredEmail(b.email) && u.jobTitle == Trim(b.jobTitle)
              && u.password == hash(b.password) && !u.passwordModified && u.language == None
              && u.subscription == reg.subscription && u.trialUsed == reg.trialUsed
              && r.value.subscription == reg.subscription && r.value.requiresPayment == reg.requiresPayment
    ensures r.Ok? ==> store.FindOne(b.email) == Some(r.value.user)
  {
    var existing := store.FindOne(b.email);
    if existing.Some? {
      return Err(Error(400, DuplicateMessage));
    }
    var reg := PlanRegistration(b.subscriptionType, now);
    if reg.Err? {
      return Err(reg.error);
    }
    // The schema validates the document as the setters leave it.
    if !SchemaValid(Trim(b.name), StoredEmail(b.email), b.password, Trim(b.jobTitle), emailPattern) {
      return Err(Error(500, RegisterFailedMessage));
    }
    var user := CreateAccount(store, b, reg.value, hash);
    r := Ok(RegisterResponse(user, user.subscription, reg.value.requiresPayment));
  }

  /** `new User({...})` followed by its first save: the setters store the
      trimmed name and job title and the stored e-mail, the pre-save hook
      hashes the password, and the account is filed under its e-mail. */
  method CreateAccount(store: UserStore, b: RegistrationBody, reg: Registration, hash: string -> string)
    returns (user: User)
    requires store.Valid() && StoredEmail(b.email) !in store.users
    modifies store
    ensures fresh(user) && store.Valid()
    ensures store.users == old(store.users)[StoredEmail(b.email) := user]
    ensures user.name == Trim(b.name) && user.email == StoredEmail(b.email) && user.jobTitle == Trim(b.jobTitle)
    ensures user.password == hash(b.password) && !user.passwordModified && user.language == None
    ensures user.subscription == reg.subscription && user.trialUsed == reg.trialUsed
  {
    user := new User(b.name, b.email, b.password, b.jobTitle, reg.subscription, Some(reg.trialUsed));
    user.Save(hash);
    store.Insert(user);
  }

  /** Every plan type the registration validator admits is in the plan
      table, so a validated registration never reaches the handler's
      "Invalid subscription type" answer. */
  lemma ValidatedTypeHasPlan(subscriptionType: string, now: int)
    requires subscriptionType in RegistrationTypes
    ensures subscriptionType in Plans && PlanRegistration(subscriptionType, now).Ok?
  {
  }

  /** `POST /register` with its middleware: `validateRegistration`, then
      `handleValidationErrors`, then the handler on the sanitized body. A body
      the validators refuse is answered 400 with their errors and adds nothing;
      one they pass is registered as `Register` says, under the trimmed name
      and job title and the normalized e-mail. */
  method PostRegister(store: UserStore, b: RegistrationBody, isEmail: string -> bool,
                      normalizeEmail: string -> string, emailPattern: string -> bool,
                      now: int, hash: string -> string)
    returns (r: Result<RegisterResponse, HttpError>)
    requires store.Valid()
    modifies store
    ensures store.Valid()
    ensures ValidateRegistration(b, isEmail, normalizeEmail).errors != [] ==>
              r == Err(HttpError(400, "Validation failed", ValidateRegistration(b, isEmail, normalizeEmail).errors))
    ensures r.Err? ==> store.users == old(store.users)
    ensures ValidateRegistration(b, isEmail, normalizeEmail).errors == [] ==>
              var c := ValidateRegistration(b, isEmail, normalizeEmail).body;
              (r.Ok? <==> StoredEmail(c.email) !in old(store.users)
                          && SchemaValid(c.name, StoredEmail(c.email), c.password, c.jobTitle, emailPattern))
    ensures ValidateRegistration(b, isEmail, normalizeEmail).errors == []
            && StoredEmail(normalizeEmail(b.email)) in old(store.users) ==>
              r == Err(Error(400, DuplicateMessage))
    ensures ValidateRegistration(b, isEmail, normalizeEmail).errors == []
            && StoredEmail(normalizeEmail(b.email)) !in old(store.users) && r.Err? ==>
              r == Err(Error(500, RegisterFailedMessage))
    ensures r.Ok? ==>
              var u := r.value.user;
              var reg := PlanRegistration(b.subscriptionType, now).value;
              && fresh(u)
              && store.users == old(store.users)[StoredEmail(normalizeEmail(b.email)) := u]
              && u.name == Trim(b.name) && u.email == StoredEmail(normalizeEmail(b.email))
              && u.jobTitle == Trim(b.jobTitle) && u.password == hash(b.password) && u.language == None
              && u.subscription == reg.subscription && u.trialUsed == reg.trialUsed
              && !u.passwordModified
              && r.value.subscription == reg.subscription
              && r.value.requiresPayment == reg.requiresPayment
  {
    var checked := ValidateRegistration(b, isEmail, normalizeEmail);
    match HandleValidationErrors(checked.errors)
    case Reject(e) =>
      r := Err(e);
    case Next =>
      ValidatedTypeHasPlan(b.subscriptionType, now);
      TrimIdempotent(b.name);
      TrimIdempotent(b.jobTitle);
      r := Register(store, checked.body, emailPattern, now, hash);
  }

  /** The profile fields `PUT /profile` may change. */
  datatype Profile = Profile(name: string, jobTitle: string, language: Option<string>)

  /** JavaScript truthiness of a string member: present and non-empty. */
  predicate Truthy(v: Field<string>) {
    v.Present? && v.value != ""
  }

  /** The profile after the guarded assignments of `PUT /profile`: the name and
      the job title change only when supplied truthy, and then to the trimmed
      value the schema's setter stores; the language changes whenever it is
      supplied at all, to `null` as well. */
  function UpdatedProfile(p: Profile, name: Field<string>, jobTitle: Field<string>,
                          language: Field<string>): (q: Profile)
    ensures q.name == if Truthy(name) then Trim(name.value) else p.name
    ensures q.jobTitle == if Truthy(jobTitle) then Trim(jobTitle.value) else p.jobTitle
    ensures language.Absent? ==> q.language == p.language
    ensures language.Null? ==> q.language == None
    ensures language.Present? ==> q.language == Some(language.value)
  {
    Profile(
      if Truthy(name) then Trim(name.value) else p.name,
      if Truthy(jobTitle) then Trim(jobTitle.value) else p.jobTitle,
      match language
      case Absent => p.language
      case Null => None
      case Present(l) => Some(l))
  }

  /** Sending the same profile update twice has the effect of sending it once,
      and an update that supplies nothing changes nothing. */
  lemma UpdatedProfileIdempotent(p: Profile, name: Field<string>, jobTitle: Field<string>,
                                 language: Field<string>)
    ensures UpdatedProfile(UpdatedProfile(p, name, jobTitle, language), name, jobTitle, language)
            == UpdatedProfile(p, name, jobTitle, language)
    ensures UpdatedProfile(p, Absent, Absent, Absent) == p
  {
  }

  /** The user part of the `PUT /profile` response. */
  datatype ProfileView = ProfileView(name: string, email: string, jobTitle: string,
                                     language: Option<string>, subscription: Subscription)

  /** The handler of `PUT /profile` on the authenticated account. When the
      updated name and job title are both non-empty it applies
      `UpdatedProfile` and saves; a name or job title that trims to nothing
      fails the schema's `required` check, the save is refused with 500 and the
      account is left as it was. The e-mail, the subscription and `trialUsed`
      are never touched. */
  method UpdateProfile(user: User, name: Field<string>, jobTitle: Field<string>,
                       language: Field<string>, hash: string -> string)
    returns (r: Result<ProfileView, HttpError>)
    modifies user
    ensures var q := UpdatedProfile(Profile(old(user.name), old(user.jobTitle), old(user.language)),
                                    name, jobTitle, language);
            if q.name != "" && q.jobTitle != "" then
              && r == Ok(ProfileView(q.name, user.email, q.jobTitle, q.language, user.subscription))
              && user.name == q.name && user.jobTitle == q.jobTitle && user.language == q.language
              && user.password == StoredPassword(old(user.password), old(user.passwordModified), hash)
              && !user.passwordModified
            else
              && r == Err(Error(500, "Server error"))
              && user.name == old(user.name) && user.jobTitle == old(user.jobTitle)
              && user.language == old(user.language)
              && user.password == old(user.password) && user.passwordModified == old(user.passwordModified)
    ensures user.email == old(user.email) && user.subscription == old(user.subscription)
    ensures user.trialUsed == old(user.trialUsed)
  {
    var q := UpdatedProfile(Profile(user.name, user.jobTitle, user.language), name, jobTitle, language);
    if q.name == "" || q.jobTitle == "" {
      return Err(Error(500, "Server error"));
    }
    user.name := q.name;
    user.jobTitle := q.jobTitle;
    user.language := q.language;
    user.Save(hash);
    r := Ok(ProfileView(user.name, user.email, user.jobTitle, user.language, user.subscription));
  }
}
