/** The request checks of middleware/validation.js: the `validateRegistration`
    and `validatePayment` chains and `handleValidationErrors`. A field missing
    from the body is checked as the empty string. */
module Validation {
  import opened JsText
  import opened Http

  /** The fields `POST /register` reads. */
  datatype RegistrationBody = RegistrationBody(name: string, email: string, password: string,
                                               jobTitle: string, subscriptionType: string)

  /** The fields `POST /confirm-payment` reads. */
  datatype PaymentBody = PaymentBody(subscriptionType: string, paymentIntentId: string)

  const NameMessage := "Name must be between 2 and 50 characters"
  const EmailMessage := "Please provide a valid email address"
  const PasswordLengthMessage := "Password must be at least 6 characters long"
  const PasswordPatternMessage :=
    "Password must contain at least one uppercase letter, one lowercase letter, and one number"
  const JobTitleMessage := "Job title must be between 2 and 100 characters"
  const SubscriptionTypeMessage := "Invalid subscription type"
  const PaymentIntentMessage := "Payment intent ID is required"

  /** The plan types registration admits. */
  const RegistrationTypes: set<string> := {"monthly", "quarterly", "yearly", "trial"}

  /** The plan types payment admits: the paid ones. */
  const PaymentTypes: set<string> := {"monthly", "quarterly", "yearly"}

  /** `name`: trimmed, then 2 to 50 characters. */
  predicate NameOk(name: string) {
    2 <= |Trim(name)| <= 50
  }

  /** `jobTitle`: trimmed, then 2 to 100 characters. */
  predicate JobTitleOk(jobTitle: string) {
    2 <= |Trim(jobTitle)| <= 100
  }

  /** `password`: at least 6 characters, untrimmed. */
  predicate PasswordLengthOk(password: string) {
    |password| >= 6
  }

  predicate IsLowerLetter(c: char) { 'a' <= c <= 'z' }
  predicate IsUpperLetter(c: char) { 'A' <= c <= 'Z' }
  predicate IsDigit(c: char) { '0' <= c <= '9' }

  /** The part of `s` a `.*` anchored at its start can cover: everything
      before the first line terminator. */
  function FirstLine(s: string): (r: string)
    ensures |r| <= |s| && r == s[..|r|]
    ensures forall i :: 0 <= i < |r| ==> !IsLineTerminator(r[i])
    ensures |r| == |s| || IsLineTerminator(s[|r|])
  {
    if s == [] || IsLineTerminator(s[0]) then [] else [s[0]] + FirstLine(s[1..])
  }

  /** `/^(?=.*[a-z])(?=.*[A-Z])(?=.*\d)/`: each look-ahead starts at position 0
      and `.` does not cross a line terminator, so a lower-case letter, an
      upper-case letter and a digit must all occur before the first line break. */
  predicate PasswordPatternOk(password: string) {
    var line := FirstLine(password);
    && (exists i :: 0 <= i < |line| && IsLowerLetter(line[i]))
    && (exists i :: 0 <= i < |line| && IsUpperLetter(line[i]))
    && (exists i :: 0 <= i < |line| && IsDigit(line[i]))
  }

  /** The first line of `s` ends at position `k` when `k` is the end of `s` or
      a line terminator and no line terminator comes before it. */
  lemma FirstLineEndsAt(s: string, k: nat)
    requires k <= |s| && (k == |s| || IsLineTerminator(s[k]))
    requires forall i :: 0 <= i < k ==> !IsLineTerminator(s[i])
    ensures FirstLine(s) == s[..k]
  {
  }

  /** On a password without line breaks the pattern says what its message says:
      at least one lower-case letter, one upper-case letter and one digit. */
  lemma PasswordPatternOnOneLine(password: string)
    requires forall i :: 0 <= i < |password| ==> !IsLineTerminator(password[i])
    ensures PasswordPatternOk(password) <==>
              && (exists i :: 0 <= i < |password| && IsLowerLetter(password[i]))
              && (exists i :: 0 <= i < |password| && IsUpperLetter(password[i]))
              && (exists i :: 0 <= i < |password| && IsDigit(password[i]))
  {
  }

  /** The pattern does not look past a line break: "A\nbcdef1" is long enough
      and holds all three character classes, yet is rejected, because its
      first line is just "A". */
  lemma PasswordPatternStopsAtLineBreak()
    ensures PasswordLengthOk("A\nbcdef1")
    ensures IsUpperLetter("A\nbcdef1"[0]) && IsLowerLetter("A\nbcdef1"[2]) && IsDigit("A\nbcdef1"[7])
    ensures !PasswordPatternOk("A\nbcdef1")
  {
  }

  /** The errors one validator records: its error when the check fails, none otherwise. */
  function Check(ok: bool, e: FieldError): (r: seq<FieldError>)
    ensures ok ==> r == []
    ensures !ok ==> r == [e]
  {
    if ok then [] else [e]
  }

  /** A request after a validation chain: the body as its sanitizers left it,
      and the errors its validators recorded, in chain order. */
  datatype Checked<T> = Checked(body: T, errors: seq<FieldError>)

  /** `validateRegistration`. `isEmail` and `normalizeEmail` stand for the
      validator library's e-mail check and sanitizer. The body passes exactly
      when every field check holds; each failed check contributes its own
      message; `name` and `jobTitle` come out trimmed. */
  function ValidateRegistration(b: RegistrationBody, isEmail: string -> bool,
                                normalizeEmail: string -> string): (r: Checked<RegistrationBody>)
    ensures r.errors == [] <==>
              && NameOk(b.name) && isEmail(b.email)
              && PasswordLengthOk(b.password) && PasswordPatternOk(b.password)
              && JobTitleOk(b.jobTitle) && b.subscriptionType in RegistrationTypes
    ensures FieldError(NameField, NameMessage) in r.errors <==> !NameOk(b.name)
    ensures FieldError(EmailField, EmailMessage) in r.errors <==> !isEmail(b.email)
    ensures FieldError(PasswordField, PasswordLengthMessage) in r.errors <==> !PasswordLengthOk(b.password)
    ensures FieldError(PasswordField, PasswordPatternMessage) in r.errors <==> !PasswordPatternOk(b.password)
    ensures FieldError(JobTitleField, JobTitleMessage) in r.errors <==> !JobTitleOk(b.jobTitle)
    ensures FieldError(SubscriptionTypeField, SubscriptionTypeMessage) in r.errors <==>
              b.subscriptionType !in RegistrationTypes
    ensures r.body == RegistrationBody(Trim(b.name), normalizeEmail(b.email), b.password,
                                       Trim(b.jobTitle), b.subscriptionType)
  {
    var errors := RegistrationErrors(NameOk(b.name), isEmail(b.email), PasswordLengthOk(b.password),
                                     PasswordPatternOk(b.password), JobTitleOk(b.jobTitle),
                                     b.subscriptionType in RegistrationTypes);
    Checked(RegistrationBody(Trim(b.name), normalizeEmail(b.email), b.password,
                             Trim(b.jobTitle), b.subscriptionType), errors)
  }

  /** One validator of a chain: whether its check passed, and the error it
      records when it did not. */
  datatype Validator = Validator(passes: bool, error: FieldError)

  /** The errors a chain of validators records, in chain order. */
  function Failures(chain: seq<Validator>): (r: seq<FieldError>)
    ensures r == [] <==> forall i :: 0 <= i < |chain| ==> chain[i].passes
  {
    if chain == [] then [] else Check(chain[0].passes, chain[0].error) + Failures(chain[1..])
  }

  /** An error no validator of the chain records is not among its failures. */
  lemma {:induction false} FailureNotRecorded(chain: seq<Validator>, e: FieldError)
    requires forall j :: 0 <= j < |chain| ==> chain[j].error != e
    ensures e !in Failures(chain)
  {
    if chain != [] {
      FailureNotRecorded(chain[1..], e);
    }
  }

  /** A validator whose error no other validator of the chain shares records
      it exactly when its check fails. */
  lemma {:induction false} FailureRecorded(chain: seq<Validator>, i: nat)
    requires i < |chain|
    requires forall j :: 0 <= j < |chain| && j != i ==> chain[j].error != chain[i].error
    ensures chain[i].error in Failures(chain) <==> !chain[i].passes
  {
    if i == 0 {
      FailureNotRecorded(chain[1..], chain[0].error);
    } else {
      FailureRecorded(chain[1..], i - 1);
    }
  }

  /** The registration chain, in the order the middleware runs it. */
  function RegistrationChain(nameOk: bool, emailOk: bool, lengthOk: bool, patternOk: bool,
                             jobTitleOk: bool, typeOk: bool): seq<Validator>
  {
    [Validator(nameOk, FieldError(NameField, NameMessage)),
     Validator(emailOk, FieldError(EmailField, EmailMessage)),
     Validator(lengthOk, FieldError(PasswordField, PasswordLengthMessage)),
     Validator(patternOk, FieldError(PasswordField, PasswordPatternMessage)),
     Validator(jobTitleOk, FieldError(JobTitleField, JobTitleMessage)),
     Validator(typeOk, FieldError(SubscriptionTypeField, SubscriptionTypeMessage))]
  }

  /** The errors of the registration chain, in chain order, given the outcome
      of each of its six checks. */
  function RegistrationErrors(nameOk: bool, emailOk: bool, lengthOk: bool, patternOk: bool,
                              jobTitleOk: bool, typeOk: bool): (r: seq<FieldError>)
    ensures r == [] <==> nameOk && emailOk && lengthOk && patternOk && jobTitleOk && typeOk
    ensures FieldError(NameField, NameMessage) in r <==> !nameOk
    ensures FieldError(EmailField, EmailMessage) in r <==> !emailOk
    ensures FieldError(PasswordField, PasswordLengthMessage) in r <==> !lengthOk
    ensures FieldError(PasswordField, PasswordPatternMessage) in r <==> !patternOk
    ensures FieldError(JobTitleField, JobTitleMessage) in r <==> !jobTitleOk
    ensures FieldError(SubscriptionTypeField, SubscriptionTypeMessage) in r <==> !typeOk
  {
    var chain := RegistrationChain(nameOk, emailOk, lengthOk, patternOk, jobTitleOk, typeOk);
    assert |PasswordLengthMessage| != |PasswordPatternMessage|;
    FailureRecorded(chain, 0);
    FailureRecorded(chain, 1);
    FailureRecorded(chain, 2);
    FailureRecorded(chain, 3);
    FailureRecorded(chain, 4);
    FailureRecorded(chain, 5);
    Failures(chain)
  }

  /** `validatePayment`: the plan must be a paid one and the payment intent id
      must not be empty. Nothing is sanitized. */
  function ValidatePayment(b: PaymentBody): (r: Checked<PaymentBody>)
    ensures r.errors == [] <==> b.subscriptionType in PaymentTypes && b.paymentIntentId != ""
    ensures FieldError(SubscriptionTypeField, SubscriptionTypeMessage) in r.errors <==>
              b.subscriptionType !in PaymentTypes
    ensures FieldError(PaymentIntentIdField, PaymentIntentMessage) in r.errors <==> b.paymentIntentId == ""
    ensures r.body == b
  {
    var chain := [Validator(b.subscriptionType in PaymentTypes, FieldError(SubscriptionTypeField, SubscriptionTypeMessage)),
                  Validator(b.paymentIntentId != "", FieldError(PaymentIntentIdField, PaymentIntentMessage))];
    FailureRecorded(chain, 0);
    FailureRecorded(chain, 1);
    Checked(b, Failures(chain))
  }

  /** Registration admits exactly the paid plans plus the trial. */
  lemma PaymentTypesAreRegistrationTypesButTrial()
    ensures PaymentTypes == RegistrationTypes - {"trial"}
  {
  }

  /** What `handleValidationErrors` does: pass the request on, or answer it. */
  datatype Gate = Next | Reject(error: HttpError)

  /** `handleValidationErrors`: with no errors the request goes on to the next
      handler; with any, it is answered 400 "Validation failed" carrying all of
      them, and the next handler does not run. */
  function HandleValidationErrors(errors: seq<FieldError>): (g: Gate)
    ensures g.Next? <==> errors == []
    ensures g.Reject? ==> g.error == HttpError(400, "Validation failed", errors)
  {
    if errors == [] then Next else Reject(HttpError(400, "Validation failed", errors))
  }
}
