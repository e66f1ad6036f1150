/** The account document (models/User.js): the subscription and payment
    sub-documents with their enums and defaults, the account itself with its
    quota counter and its hash-on-save password rule, and the collection that
    stores accounts by e-mail. */
module UserModel {
  import opened Wrappers
  import opened JsText

  /** Values of `subscription.type`. */
  datatype PlanType = Monthly | Quarterly | Yearly | Trial

  /** The strings the `type` enum admits. */
  const PlanTypeNames: set<string> := {"monthly", "quarterly", "yearly", "trial"}

  function PlanTypeName(t: PlanType): (s: string)
    ensures s in PlanTypeNames
  {
    match t
    case Monthly => "monthly"
    case Quarterly => "quarterly"
    case Yearly => "yearly"
    case Trial => "trial"
  }

  /** Casting a string to the `type` enum: it succeeds exactly for the enum's
      strings, and then yields the one plan type with that name. */
  function ParsePlanType(s: string): (r: Option<PlanType>)
    ensures r.Some? <==> s in PlanTypeNames
    ensures r.Some? ==> PlanTypeName(r.value) == s
  {
    if s == "monthly" then Some(Monthly)
    else if s == "quarterly" then Some(Quarterly)
    else if s == "yearly" then Some(Yearly)
    else if s == "trial" then Some(Trial)
    else None
  }

  /** Every plan type survives the trip to its name and back. */
  lemma PlanTypeRoundTrip(t: PlanType)
    ensures ParsePlanType(PlanTypeName(t)) == Some(t)
  {
  }

  /** Values of `subscription.status`. */
  datatype Status = Active | Expired | Pending

  const StatusNames: set<string> := {"active", "expired", "pending"}

  /** The status a subscription gets when none is given. */
  const DefaultStatus := Pending

  function StatusName(s: Status): (n: string)
    ensures n in StatusNames
  {
    match s
    case Active => "active"
    case Expired => "expired"
    case Pending => "pending"
  }

  /** Casting a string to the `status` enum. */
  function ParseStatus(s: string): (r: Option<Status>)
    ensures r.Some? <==> s in StatusNames
    ensures r.Some? ==> StatusName(r.value) == s
  {
    if s == "active" then Some(Active)
    else if s == "expired" then Some(Expired)
    else if s == "pending" then Some(Pending)
    else None
  }

  /** `callSeconds` when the subscription does not give one: three minutes. */
  const DefaultCallSeconds := 180

  /** `payment.method` when the payment does not give one. */
  const DefaultPaymentMethod := "credit_card"

  /** Milliseconds in a day: timestamps are milliseconds since the epoch. */
  const MillisPerDay := 86_400_000

  /** A row of the routes' plan tables: message quota, duration in days and price in dollars. */
  datatype Plan = Plan(messageLimit: nat, duration: nat, price: nat)

  /** `endDate.setDate(endDate.getDate() + days)` on a timestamp. */
  function AddDays(t: int, days: nat): (r: int)
    ensures r >= t
    ensures days > 0 ==> r > t
  {
    t + days * MillisPerDay
  }

  /** The payment sub-document. `lastPaymentDate` is `None` when it was stored
      as `null`; `nextPaymentDate` is `None` when it was never set. */
  datatype Payment = Payment(amount: int, paymentMethod: string,
                             lastPaymentDate: Option<int>, nextPaymentDate: Option<int>)

  /** The subscription sub-document. */
  datatype Subscription = Subscription(
    planType: PlanType,
    status: Status,
    messageLimit: int,
    remainingMessages: int,
    callSeconds: int,
    startDate: int,
    endDate: int,
    payment: Option<Payment>)
  {
    /** `isSubscriptionActive` on the subscription it reads. */
    predicate IsActive(now: int) {
      status == Active && now < endDate
    }
  }

  /** A subscription is active exactly when its status is `active` and its end
      date is still ahead; pending and expired subscriptions never are. */
  lemma ActiveMeansStatusAndDate(s: Subscription, now: int)
    ensures s.IsActive(now) <==> s.status == Active && now < s.endDate
    ensures s.status == Pending ==> !s.IsActive(now)
    ensures s.status == Expired ==> !s.IsActive(now)
    ensures s.IsActive(now) ==> forall t :: t <= now ==> s.IsActive(t)
  {
  }

  /** The quota invariant: the remaining count lies between 0 and the limit. */
  predicate QuotaOk(s: Subscription) {
    0 <= s.remainingMessages <= s.messageLimit
  }

  /** A payment object literal as a route writes it, before Mongoose casts it. */
  datatype PaymentInit = PaymentInit(amount: int, paymentMethod: Option<string>,
                                     lastPaymentDate: Field<int>, nextPaymentDate: Option<int>)

  /** A subscription object literal as a route writes it, before Mongoose casts it:
      the strings are not yet checked against the enums and the optional
      members are not yet defaulted. */
  datatype SubscriptionInit = SubscriptionInit(
    planType: string,
    status: Option<string>,
    messageLimit: int,
    remainingMessages: int,
    callSeconds: Option<int>,
    startDate: Option<int>,
    endDate: int,
    payment: Option<PaymentInit>)

  /** Casting a payment literal: `method` defaults to `credit_card`,
      `lastPaymentDate` defaults to the current time when left out but stays
      `null` when given as `null`; the other members are kept. */
  function CastPayment(p: PaymentInit, now: int): (r: Payment)
    ensures r.amount == p.amount && r.nextPaymentDate == p.nextPaymentDate
    ensures r.paymentMethod == p.paymentMethod.GetOr(DefaultPaymentMethod)
    ensures p.lastPaymentDate.Absent? ==> r.lastPaymentDate == Some(now)
    ensures p.lastPaymentDate.Null? ==> r.lastPaymentDate.None?
    ensures p.lastPaymentDate.Present? ==> r.lastPaymentDate == Some(p.lastPaymentDate.value)
  {
    var last := match p.lastPaymentDate
      case Absent => Some(now)
      case Null => None
      case Present(d) => Some(d);
    Payment(p.amount, p.paymentMethod.GetOr(DefaultPaymentMethod), last, p.nextPaymentDate)
  }

  /** Casting a subscription literal against the schema. It fails exactly when
      `type` or a given `status` is outside its enum; otherwise the enums are
      decoded, `status` defaults to `pending`, `callSeconds` to 180 and
      `startDate` to the current time, and the numbers are kept as given. */
  function CastSubscription(init: SubscriptionInit, now: int): (r: Result<Subscription, string>)
    ensures r.Ok? <==> init.planType in PlanTypeNames
                       && (init.status.Some? ==> init.status.value in StatusNames)
    ensures r.Ok? ==> PlanTypeName(r.value.planType) == init.planType
    ensures r.Ok? && init.status.None? ==> r.value.status == DefaultStatus
    ensures r.Ok? && init.status.Some? ==> StatusName(r.value.status) == init.status.value
    ensures r.Ok? ==> r.value.messageLimit == init.messageLimit
                      && r.value.remainingMessages == init.remainingMessages
                      && r.value.endDate == init.endDate
    ensures r.Ok? ==> r.value.callSeconds == init.callSeconds.GetOr(DefaultCallSeconds)
    ensures r.Ok? ==> r.value.startDate == init.startDate.GetOr(now)
    ensures r.Ok? ==> (r.value.payment.Some? <==> init.payment.Some?)
    ensures r.Ok? && init.payment.Some? ==> r.value.payment == Some(CastPayment(init.payment.value, now))
    ensures r.Err? ==> r.error == "validation failed"
  {
    var planType := ParsePlanType(init.planType);
    var status := if init.status.Some? then ParseStatus(init.status.value) else Some(DefaultStatus);
    if planType.None? || status.None? then Err("validation failed")
    else
      var payment := if init.payment.Some? then Some(CastPayment(init.payment.value, now)) else None;
      Ok(Subscription(planType.value, status.value, init.messageLimit, init.remainingMessages,
                      init.callSeconds.GetOr(DefaultCallSeconds), init.startDate.GetOr(now),
                      init.endDate, payment))
  }

  /** The message `decrementMessageCount` rejects with when the quota is used up. */
  const NoMessagesRemaining := "No messages remaining"

  /** The effect of one `decrementMessageCount` on the subscription: with a
      positive remaining count it is lowered by exactly one and nothing else
      changes; otherwise the call fails and nothing is lowered. The quota
      invariant survives a successful decrement. */
  function Decremented(s: Subscription): (r: Result<Subscription, string>)
    ensures r.Ok? <==> s.remainingMessages > 0
    ensures r.Ok? ==> r.value == s.(remainingMessages := s.remainingMessages - 1)
    ensures r.Err? ==> r.error == NoMessagesRemaining
    ensures r.Ok? && QuotaOk(s) ==> QuotaOk(r.value)
  {
    if s.remainingMessages > 0 then Ok(s.(remainingMessages := s.remainingMessages - 1))
    else Err(NoMessagesRemaining)
  }

  /** The subscription after `k` decrement attempts in a row, a rejected
      attempt leaving it as it was. */
  function AfterAttempts(s: Subscription, k: nat): Subscription
    decreases k
  {
    if k == 0 then s
    else match Decremented(s)
      case Ok(t) => AfterAttempts(t, k - 1)
      case Err(_) => AfterAttempts(s, k - 1)
  }

  /** How many of `k` decrement attempts in a row succeed. */
  function Successes(s: Subscription, k: nat): nat
    decreases k
  {
    if k == 0 then 0
    else match Decremented(s)
      case Ok(t) => 1 + Successes(t, k - 1)
      case Err(_) => Successes(s, k - 1)
  }

  /** Decrements fail at zero instead of clamping below it: from a
      non-negative count `n`, `k` attempts leave `max(n - k, 0)` messages,
      exactly `min(k, n)` of them succeed, nothing but the count changes, and
      the quota invariant is kept throughout. */
  lemma {:induction false} AttemptsStopAtZero(s: Subscription, k: nat)
    requires s.remainingMessages >= 0
    ensures AfterAttempts(s, k).remainingMessages >= 0
    ensures AfterAttempts(s, k)
            == s.(remainingMessages := if k <= s.remainingMessages then s.remainingMessages - k else 0)
    ensures Successes(s, k) == if k <= s.remainingMessages then k else s.remainingMessages
    ensures QuotaOk(s) ==> QuotaOk(AfterAttempts(s, k))
    decreases k
  {
    if k > 0 {
      match Decremented(s)
      case Ok(t) => AttemptsStopAtZero(t, k - 1);
      case Err(_) => AttemptsStopAtZero(s, k - 1);
    }
  }

  /** What the pre-save hook leaves in `password`: the hash of the plain text
      when the password was modified since the last save, the stored value otherwise. */
  function StoredPassword(password: string, modified: bool, hash: string -> string): (r: string)
    ensures modified ==> r == hash(password)
    ensures !modified ==> r == password
  {
    if modified then hash(password) else password
  }

  /** An account document. `passwordModified` is Mongoose's
      `isModified('password')`: set when the password is assigned, cleared by a save. */
  class User {
    var name: string
    var email: string
    var password: string
    var passwordModified: bool
    var jobTitle: string
    var language: Option<string>
    var subscription: Subscription
    var trialUsed: bool

    /** `new User({...})`: the `trim` setters apply to name and job title, the
        `lowercase` and `trim` setters to the e-mail; the password is held as
        given and marked modified; `language` defaults to `null` and
        `trialUsed` to false. */
    constructor (name: string, email: string, password: string, jobTitle: string,
                 subscription: Subscription, trialUsed: Option<bool>)
      ensures this.name == Trim(name) && this.email == StoredEmail(email)
      ensures this.password == password && passwordModified
      ensures this.jobTitle == Trim(jobTitle) && language == None
      ensures this.subscription == subscription
      ensures this.trialUsed == trialUsed.GetOr(false)
    {
      this.name := Trim(name);
      this.email := StoredEmail(email);
      this.password := password;
      this.passwordModified := true;
      this.jobTitle := Trim(jobTitle);
      this.language := None;
      this.subscription := subscription;
      this.trialUsed := trialUsed.GetOr(false);
    }

    /** `save()` as far as the pre-save hook goes: the password is hashed only
        when it was modified, and once saved it is no longer modified, so a
        second save does not hash the hash. Nothing else changes. */
    method Save(hash: string -> string)
      modifies this`password, this`passwordModified
      ensures password == StoredPassword(old(password), old(passwordModified), hash)
      ensures !passwordModified
    {
      if passwordModified {
        password := hash(password);
      }
      passwordModified := false;
    }

    /** `isSubscriptionActive()` at the time `now`. */
    function IsSubscriptionActive(now: int): (r: bool)
      reads this
      ensures r <==> subscription.status == Active && now < subscription.endDate
      ensures subscription.status != Active ==> !r
    {
      subscription.IsActive(now)
    }

    /** `getRemainingMessages()`: the remaining count, read without changing
        anything; under the quota invariant it lies between 0 and the limit. */
    method GetRemainingMessages() returns (n: int)
      ensures n == subscription.remainingMessages
      ensures QuotaOk(subscription) ==> 0 <= n <= subscription.messageLimit
    {
      n := subscription.remainingMessages;
    }

    /** `decrementMessageCount()`: with messages left, lowers the count by one
        and saves; at zero (or below) rejects with "No messages remaining",
        saves nothing and changes nothing. */
    method DecrementMessageCount(hash: string -> string) returns (r: Outcome<string>)
      modifies this
      ensures Decremented(old(subscription)).Ok? ==>
                r.Pass? && subscription == Decremented(old(subscription)).value
                && password == StoredPassword(old(password), old(passwordModified), hash)
                && !passwordModified
      ensures Decremented(old(subscription)).Err? ==>
                r == Fail(NoMessagesRemaining) && subscription == old(subscription)
                && password == old(password) && passwordModified == old(passwordModified)
      ensures name == old(name) && email == old(email) && jobTitle == old(jobTitle)
      ensures language == old(language) && trialUsed == old(trialUsed)
    {
      if subscription.remainingMessages > 0 {
        subscription := subscription.(remainingMessages := subscription.remainingMessages - 1);
        Save(hash);
        r := Pass;
      } else {
        r := Fail(NoMessagesRemaining);
      }
    }
  }

  /** The stored form of an e-mail address: lower-cased and trimmed. */
  function StoredEmail(email: string): (r: string)
    ensures r == LowerCase(Trim(email))
    ensures forall i :: 0 <= i < |r| ==> !('A' <= r[i] <= 'Z')
    ensures r == [] || (!IsWhitespace(r[0]) && !IsWhitespace(r[|r| - 1]))
  {
    LowerCaseTrimCommute(email);
    Trim(LowerCase(email))
  }

  /** Storing is idempotent: a stored address is its own stored form, so a
      lookup with it finds the account it was stored for. */
  lemma StoredEmailIdempotent(email: string)
    ensures StoredEmail(StoredEmail(email)) == StoredEmail(email)
  {
    var r := StoredEmail(email);
    TrimIdempotent(LowerCase(email));
    assert LowerCase(r) == r;
    LowerCaseTrimCommute(r);
  }

  /** The schema's checks on a new account, run by `save()` before its hooks:
      name, e-mail and job title are required (non-empty after their setters),
      the e-mail must match the schema's address pattern (`emailPattern`) and
      the plain-text password must have at least 6 characters. */
  predicate SchemaValid(name: string, email: string, password: string, jobTitle: string,
                        emailPattern: string -> bool)
  {
    name != "" && email != "" && emailPattern(email) && |password| >= 6 && jobTitle != ""
  }

  /** The accounts collection, keyed by the stored e-mail (its unique index). */
  class UserStore {
    var users: map<string, User>

    /** Every account is filed under its own stored e-mail. */
    ghost predicate Valid()
      reads this, users.Values
    {
      forall k :: k in users ==> users[k].email == k
    }

    constructor ()
      ensures users == map[] && Valid()
    {
      users := map[];
    }

    /** `User.findOne({ email })`: the `lowercase` and `trim` setters apply to
        the query value too, so the lookup is by the stored form. */
    function FindOne(email: string): (r: Option<User>)
      reads this
      ensures r.Some? <==> StoredEmail(email) in users
      ensures r.Some? ==> r.value == users[StoredEmail(email)]
    {
      var key := StoredEmail(email);
      if key in users then Some(users[key]) else None
    }

    /** In a consistent collection a lookup finds an account whose stored
        e-mail is the stored form of the address asked for, and asking with
        an address or with its stored form finds the same account. */
    lemma FoundUnderStoredEmail(email: string)
      requires Valid()
      ensures FindOne(email).Some? ==> FindOne(email).value.email == StoredEmail(email)
      ensures FindOne(StoredEmail(email)) == FindOne(email)
    {
      StoredEmailIdempotent(email);
    }

    /** Saving a new account adds it to the collection under its own e-mail;
        the accounts already filed stay where they were. */
    method Insert(user: User)
      requires Valid() && user.email !in users
      modifies this
      ensures users == old(users)[user.email := user]
      ensures Valid()
    {
      users := users[user.email := user];
    }
  }
}
