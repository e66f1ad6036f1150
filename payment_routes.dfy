/** routes/payment.js: the payment-intent price table, the confirmation that
    activates a paid subscription, and the payment history. The payment
    provider is represented by what it answers: the status of the retrieved
    payment intent. */
module PaymentRoutes {
  import opened Wrappers
  import opened Http
  import opened UserModel
  import opened Validation
  import AuthRoutes

  /** The `prices` table of `POST /create-payment-intent`, in cents. */
  const Prices: map<string, nat> := map["monthly" := 9900, "quarterly" := 25000, "yearly" := 89900]

  /** The `plans` table of `POST /confirm-payment`: the paid plans only, prices in dollars. */
  const ConfirmPlans: map<string, Plan> := map[
    "monthly" := Plan(100, 30, 99),
    "quarterly" := Plan(300, 90, 250),
    "yearly" := Plan(1200, 365, 899)]

  const StripeMissingMessage := "Stripe key not set"
  const InvalidTypeMessage := "Invalid subscription type"
  const NotCompletedMessage := "Payment not completed"
  const ConfirmFailedMessage := "Error confirming payment"

  /** What `POST /create-payment-intent` asks the provider to create. */
  datatype IntentRequest = IntentRequest(amount: nat, currency: string, subscriptionType: string)

  /** `POST /create-payment-intent` up to the provider call. Without a
      provider key the answer is 500; otherwise only a paid plan gets an
      intent, in US dollars, for exactly 100 times the dollar price that a
      confirmation of that plan records; the trial and unknown plans are
      answered 400 "Invalid subscription type". */
  function CreatePaymentIntent(stripeConfigured: bool, subscriptionType: string): (r: Result<IntentRequest, HttpError>)
    ensures !stripeConfigured ==> r == Err(Error(500, StripeMissingMessage))
    ensures stripeConfigured ==> (r.Ok? <==> subscriptionType in PaymentTypes)
    ensures stripeConfigured && r.Err? ==> r.error == Error(400, InvalidTypeMessage)
    ensures r.Ok? ==> r.value == IntentRequest(100 * ConfirmPlans[subscriptionType].price, "usd", subscriptionType)
  {
    if !stripeConfigured then Err(Error(500, StripeMissingMessage))
    else if subscriptionType !in Prices then Err(Error(400, InvalidTypeMessage))
    else Ok(IntentRequest(Prices[subscriptionType], "usd", subscriptionType))
  }

  /** The confirmation table is the registration table without the trial:
      the same quota, duration and price for every paid plan. */
  lemma ConfirmPlansAgreeWithRegistration()
    ensures ConfirmPlans.Keys == AuthRoutes.Plans.Keys - {"trial"}
    ensures forall t :: t in ConfirmPlans ==> ConfirmPlans[t] == AuthRoutes.Plans[t]
  {
  }

  /** The subscription object literal `POST /confirm-payment` assigns for a
      plan of its table, before the schema casts it. */
  function ConfirmationLiteral(subscriptionType: string, plan: Plan, now: int): SubscriptionInit {
    var endDate := AddDays(now, plan.duration);
    SubscriptionInit(subscriptionType, Some("active"), plan.messageLimit, plan.messageLimit,
                     None, Some(now), endDate,
                     Some(PaymentInit(plan.price, Some("credit_card"), Present(now), Some(endDate))))
  }

  /** The subscription a confirmed payment installs at time `now`, or `None`
      when the plan is not in the confirmation table. It depends on the plan
      and the time only, never on the subscription it replaces: it is
      `active`, its limit and remaining count both equal the table's quota,
      it runs from `now` for the plan's duration, and its payment records the
      plan's price, paid now by credit card, next due at the end date. */
  function PaidSubscription(subscriptionType: string, now: int): (r: Option<Subscription>)
    ensures r.Some? <==> subscriptionType in ConfirmPlans
    ensures r.Some? ==>
              var s := r.value;
              var plan := ConfirmPlans[subscriptionType];
              && PlanTypeName(s.planType) == subscriptionType
              && s.status == Active
              && s.messageLimit == plan.messageLimit && s.remainingMessages == plan.messageLimit
              && s.callSeconds == DefaultCallSeconds
              && s.startDate == now && s.endDate == now + plan.duration * MillisPerDay
              && s.payment == Some(Payment(plan.price, "credit_card", Some(now), Some(s.endDate)))
  {
    if subscriptionType !in ConfirmPlans then None
    else
      var s := CastSubscription(ConfirmationLiteral(subscriptionType, ConfirmPlans[subscriptionType], now), now);
      assert s.Ok?;
      Some(s.value)
  }

  /** Confirming the same plan twice, at any two times, grants the same quota
      both times: the remaining count is reset to the limit, not accumulated. */
  lemma ConfirmTwiceSameQuota(subscriptionType: string, now1: int, now2: int)
    requires subscriptionType in ConfirmPlans
    ensures var s1 := PaidSubscription(subscriptionType, now1).value;
            var s2 := PaidSubscription(subscriptionType, now2).value;
            && s1.planType == s2.planType && s1.status == s2.status
            && s1.messageLimit == s2.messageLimit
            && s1.remainingMessages == s2.remainingMessages == s1.messageLimit
            && s1.callSeconds == s2.callSeconds
            && s1.endDate - s1.startDate == s2.endDate - s2.startDate
            && s1.payment.value.amount == s2.payment.value.amount
  {
  }

  /** A confirmed subscription satisfies the quota invariant and is active
      from the moment of payment until its end date, and not after. */
  lemma ConfirmedActivity(subscriptionType: string, now: int, t: int)
    requires subscriptionType in ConfirmPlans
    ensures var s := PaidSubscription(subscriptionType, now).value;
            && QuotaOk(s)
            && (s.IsActive(t) <==> t < now + ConfirmPlans[subscriptionType].duration * MillisPerDay)
  {
  }

  /** The handler of `POST /confirm-payment` for the authenticated account.
      `intentStatus` is the status of the retrieved payment intent, `None`
      when retrieving it failed. Without a provider key, with a failed
      retrieval, with a status other than `succeeded`, or with a plan outside
      the table, the account is left as it was; otherwise its subscription is
      replaced wholesale by `PaidSubscription` and saved. Nothing else of the
      account changes. */
  method ConfirmPayment(user: User, stripeConfigured: bool, subscriptionType: string,
                        intentStatus: Option<string>, now: int, hash: string -> string)
    returns (r: Result<Subscription, HttpError>)
    modifies user
    ensures !stripeConfigured ==> r == Err(Error(500, StripeMissingMessage))
    ensures stripeConfigured && intentStatus.None? ==> r == Err(Error(500, ConfirmFailedMessage))
    ensures stripeConfigured && intentStatus.Some? && intentStatus.value != "succeeded" ==>
              r == Err(Error(400, NotCompletedMessage))
    ensures stripeConfigured && intentStatus == Some("succeeded") && subscriptionType !in ConfirmPlans ==>
              r == Err(Error(500, ConfirmFailedMessage))
    ensures r.Ok? <==> stripeConfigured && intentStatus == Some("succeeded") && subscriptionType in ConfirmPlans
    ensures r.Ok? ==> Some(user.subscription) == PaidSubscription(subscriptionType, now)
                      && r.value == user.subscription
                      && user.password == StoredPassword(old(user.password), old(user.passwordModified), hash)
                      && !user.passwordModified
    ensures r.Err? ==> user.subscription == old(user.subscription)
                       && user.password == old(user.password)
                       && user.passwordModified == old(user.passwordModified)
    ensures user.name == old(user.name) && user.email == old(user.email)
    ensures user.jobTitle == old(user.jobTitle) && user.language == old(user.language)
    ensures user.trialUsed == old(user.trialUsed)
  {
    if !stripeConfigured {
      return Err(Error(500, StripeMissingMessage));
    }
    if intentStatus.None? {
      return Err(Error(500, ConfirmFailedMessage));
    }
    if intentStatus.value != "succeeded" {
      return Err(Error(400, NotCompletedMessage));
    }
    var paid := PaidSubscription(subscriptionType, now);
    if paid.None? {
      // `plan.duration` on an undefined plan throws; the handler answers 500.
      return Err(Error(500, ConfirmFailedMessage));
    }
    user.subscription := paid.value;
    user.Save(hash);
    r := Ok(user.subscription);
  }

  /** Every plan type the payment validator admits is in the confirmation
      table, so a validated confirmation never looks up an undefined plan. */
  lemma ValidatedPaymentHasPlan(b: PaymentBody)
    requires ValidatePayment(b).errors == []
    ensures b.subscriptionType in ConfirmPlans && PaidSubscription(b.subscriptionType, 0).Some?
  {
  }

  /** `POST /confirm-payment` with its middleware: `validatePayment`, then
      `handleValidationErrors`, then the handler. A body the validators refuse
      is answered 400 with their errors and changes nothing; one they pass
      gets the handler's answers, and a succeeded payment then always
      activates the requested plan. Only the subscription and the password
      bookkeeping of the save ever change. */
  method PostConfirmPayment(user: User, b: PaymentBody, stripeConfigured: bool,
                            intentStatus: Option<string>, now: int, hash: string -> string)
    returns (r: Result<Subscription, HttpError>)
    modifies user
    ensures ValidatePayment(b).errors != [] ==>
              r == Err(HttpError(400, "Validation failed", ValidatePayment(b).errors))
              && user.subscription == old(user.subscription)
    ensures ValidatePayment(b).errors == [] && !stripeConfigured ==> r == Err(Error(500, StripeMissingMessage))
    ensures ValidatePayment(b).errors == [] && stripeConfigured && intentStatus.None? ==>
              r == Err(Error(500, ConfirmFailedMessage))
    ensures ValidatePayment(b).errors == [] && stripeConfigured && intentStatus.Some?
            && intentStatus.value != "succeeded" ==>
              r == Err(Error(400, NotCompletedMessage))
    ensures ValidatePayment(b).errors == [] && stripeConfigured && intentStatus == Some("succeeded") ==>
              r.Ok? && Some(user.subscription) == PaidSubscription(b.subscriptionType, now)
              && r.value == user.subscription
              && user.password == StoredPassword(old(user.password), old(user.passwordModified), hash)
              && !user.passwordModified
    ensures r.Err? ==> user.subscription == old(user.subscription)
                       && user.password == old(user.password)
                       && user.passwordModified == old(user.passwordModified)
    ensures user.name == old(user.name) && user.email == old(user.email)
    ensures user.jobTitle == old(user.jobTitle) && user.language == old(user.language)
    ensures user.trialUsed == old(user.trialUsed)
  {
    var checked := ValidatePayment(b);
    match HandleValidationErrors(checked.errors)
    case Reject(e) =>
      r := Err(e);
    case Next =>
      ValidatedPaymentHasPlan(b);
      r := ConfirmPayment(user, stripeConfigured, checked.body.subscriptionType, intentStatus, now, hash);
  }

  /** The `paymentHistory` object of `GET /history`; `Absent` members are
      dropped from the JSON. */
  datatype PaymentHistory = PaymentHistory(lastPayment: Field<int>, nextPayment: Field<int>,
                                           amount: Field<int>, paymentMethod: Field<string>)

  /** `GET /history`: the four payment members read through
      `subscription.payment?.`. Without a payment all four are absent; with
      one, amount and method are its own, the last payment is `null` when
      unpaid and the next payment is absent when never set. */
  function History(s: Subscription): (h: PaymentHistory)
    ensures s.payment.None? ==> h == PaymentHistory(Absent, Absent, Absent, Absent)
    ensures s.payment.Some? ==>
              var p := s.payment.value;
              && h.amount == Present(p.amount) && h.paymentMethod == Present(p.paymentMethod)
              && (h.lastPayment == if p.lastPaymentDate.Some? then Present(p.lastPaymentDate.value) else Null)
              && (h.nextPayment == if p.nextPaymentDate.Some? then Present(p.nextPaymentDate.value) else Absent)
  {
    match s.payment
    case None => PaymentHistory(Absent, Absent, Absent, Absent)
    case Some(p) =>
      PaymentHistory(
        match p.lastPaymentDate
        case Some(d) => Present(d)
        case None => Null,
        match p.nextPaymentDate
        case Some(d) => Present(d)
        case None => Absent,
        Present(p.amount),
        Present(p.paymentMethod))
  }

  /** The history across the subscription's life: after a trial registration
      it is empty; after a paid registration it shows the price and method,
      the end date as next payment and a `null` last payment; after a
      confirmation the last payment is the confirmation time. */
  lemma HistoryThroughLifecycle(subscriptionType: string, now: int, later: int)
    requires subscriptionType in AuthRoutes.Plans
    ensures var s := AuthRoutes.PlanRegistration(subscriptionType, now).value.subscription;
            var plan := AuthRoutes.Plans[subscriptionType];
            if subscriptionType == "trial" then
              History(s) == PaymentHistory(Absent, Absent, Absent, Absent)
            else
              History(s) == PaymentHistory(Null, Present(s.endDate), Present(plan.price), Present("credit_card"))
    ensures subscriptionType in ConfirmPlans ==>
              var s := PaidSubscription(subscriptionType, later).value;
              History(s) == PaymentHistory(Present(later), Present(s.endDate),
                                           Present(ConfirmPlans[subscriptionType].price), Present("credit_card"))
  {
  }
}
