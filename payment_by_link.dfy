/**
 * Payment-by-link issuance (`WC_EBANX_Payment_By_Link`): a permission gate,
 * a sequence of validation checks that accumulate duplicate-free error
 * messages in a static list, the request payload, and the handling of the
 * gateway's answer.
 *
 * The WordPress, WooCommerce and EBANX SDK side of the world is the class
 * `Platform` (flash messages, order notes, post metadata, the SDK's
 * configuration and the requests it was asked to send). The class
 * `PaymentByLink` holds the static fields of the PHP class. Each of its
 * methods is proved against a function on `World`, a snapshot of both, and
 * the properties of the pipeline are lemmas about those functions.
 */
module PaymentByLink {
  import opened Wrappers
  import opened Php
  import opened Orders

  /** The configuration array handed to `\Ebanx\Config::set`. */
  type Config = map<string, string>

  /** The `WC_EBANX_Constants` tables the checks consult. */
  datatype Constants = Constants(
    localCurrencies: map<string, string>,          // $LOCAL_CURRENCIES: country code => currency
    allCountries: seq<string>,                     // $ALL_COUNTRIES
    gatewayToPaymentTypeCode: map<string, string>, // $GATEWAY_TO_PAYMENT_TYPE_CODE
    gatewaysByCountry: map<string, seq<string>>)   // $EBANX_GATEWAYS_BY_COUNTRY

  /** The object `EBANX::doRequest` returns. */
  datatype Response = Response(
    status: string,
    statusCode: string,
    statusMessage: string,
    paymentHash: string,
    redirectUrl: string)

  /** What the SDK call does: it returns a response, or it throws an exception with a message. */
  datatype Outcome = Responded(response: Response) | Threw(message: string)

  /**
   * Everything `create` obtains from outside the class: the permission
   * queries, the order `wc_get_order` finds, the store currency, the e-mail
   * validator, the constant tables, `WP_DEBUG`, the `md5(time())` token and
   * what the SDK call will do.
   */
  datatype Env = Env(
    canEditPost: bool,
    isAutosave: bool,
    isRevision: bool,
    order: Order,
    storeCurrency: string,
    isValidEmail: string -> bool,
    constants: Constants,
    debug: bool,
    timeToken: string,
    outcome: Outcome)

  // The messages the checks add, each written as a few shorter literals.
  const PendingMessage := "You can only create payment links " + "on pending orders."
  const MinAmountMessage := "The total amount needs to be " + "greater than $1."
  const CountryMessage := "EBANX only support the countries: " + "Brazil, Mexico, Peru, Colombia and " + "Chile. Please, use one of these."
  const EmailMessage := "The customer e-mal is required, " + "please provide a valid customer e-mail."
  const AccountMessage := "Paying with EBANX account " + "is not avaible yet."
  const UnsupportedMethodMessage := "EBANX does not support the " + "selected payment method."
  const MethodCountryMessage := "The selected payment method is not " + "available on the selected country."
  const GenericRequestMessage := "We couldn't create your EBANX order. " + "Could you review your fields and try again?"
  const OrderCreatedNote := "Order created via EBANX."
  const PaymentHashKey := "_ebanx_payment_hash"
  const CheckoutUrlKey := "_ebanx_checkout_url"
  const AccountMethod := "ebanx-account"
  const AllMethodsCode := "_all"

  function CurrencyMessage(currency: string): string {
    "We can't proccess " + currency + " in the selected country."
  }

  // ---------------------------------------------------------------------
  // The error list

  predicate NoDuplicates(s: seq<string>) {
    forall i, j :: 0 <= i < j < |s| ==> s[i] != s[j]
  }

  /** `add_error`: the list with `e` at the end, unless `e` is already in it. */
  function AddError(errors: seq<string>, e: string): (r: seq<string>)
    ensures errors <= r
    ensures e in r
    ensures |r| == |errors| + (if e in errors then 0 else 1)
    ensures NoDuplicates(errors) ==> NoDuplicates(r)
  {
    if e in errors then errors else errors + [e]
  }

  /** Adding the same message twice is the same as adding it once. */
  lemma AddErrorIdempotent(errors: seq<string>, e: string)
    ensures AddError(AddError(errors, e), e) == AddError(errors, e)
  {
  }

  /** `add_error` applied to each message of `msgs` in turn. */
  function AddAll(errors: seq<string>, msgs: seq<string>): (r: seq<string>)
    ensures errors <= r
    ensures forall x :: x in r <==> x in errors || x in msgs
    ensures |r| <= |errors| + |msgs|
    ensures NoDuplicates(errors) ==> NoDuplicates(r)
    decreases |msgs|
  {
    if msgs == [] then errors else AddAll(AddError(errors, msgs[0]), msgs[1..])
  }

  /** Adding two batches of messages one after the other is adding their concatenation. */
  lemma {:induction false} AddAllConcat(errors: seq<string>, a: seq<string>, b: seq<string>)
    ensures AddAll(errors, a + b) == AddAll(AddAll(errors, a), b)
    decreases |a|
  {
    if a == [] {
      assert a + b == b;
    } else {
      assert (a + b)[0] == a[0];
      assert (a + b)[1..] == a[1..] + b;
      AddAllConcat(AddError(errors, a[0]), a[1..], b);
    }
  }

  // ---------------------------------------------------------------------
  // The checks. Each one yields the messages it passes to `add_error`.

  /** `is_it_pending` as written: `(! $status) === 'pending'` compares a boolean with a string. */
  predicate IsItPending(status: string) {
    !Identical(Not(Str(status)), Str("pending"))
  }

  predicate CurrencyAccepted(currency: string, country: string, c: Constants) {
    currency == "USD" || currency == "EUR"
    || (Lower(country) in c.localCurrencies && c.localCurrencies[Lower(country)] == currency)
  }

  function CurrencyCheck(order: Order, currency: string, c: Constants): seq<string> {
    if CurrencyAccepted(currency, order.billingCountry, c) then [] else [CurrencyMessage(currency)]
  }

  function MinAmountCheck(order: Order): seq<string> {
    if order.total < 1.0 then [MinAmountMessage] else []
  }

  predicate CountrySupported(country: string, c: Constants) {
    Lower(country) in c.allCountries
  }

  function SupportedCountryCheck(order: Order, c: Constants): seq<string> {
    if CountrySupported(order.billingCountry, c) then [] else [CountryMessage]
  }

  function EmailCheck(order: Order, isValidEmail: string -> bool): seq<string> {
    if isValidEmail(order.billingEmail) then [] else [EmailMessage]
  }

  function PaymentMethodCheck(order: Order, c: Constants): seq<string> {
    var pm := order.paymentMethod;
    var country := Lower(order.billingCountry);
    if pm == AccountMethod then [AccountMessage]
    else if pm !in c.gatewayToPaymentTypeCode then [UnsupportedMethodMessage]
    else if country in c.gatewaysByCountry && pm !in c.gatewaysByCountry[country] then [MethodCountryMessage]
    else []
  }

  /** The messages the checks after the pending gate raise, in the order `validate` runs them. */
  function Raised(order: Order, env: Env): seq<string> {
    CurrencyCheck(order, env.storeCurrency, env.constants)
    + MinAmountCheck(order)
    + SupportedCountryCheck(order, env.constants)
    + EmailCheck(order, env.isValidEmail)
    + (if Empty(order.paymentMethod) then [] else PaymentMethodCheck(order, env.constants))
  }

  /** The error list after `validate`. */
  function ValidateErrors(errors: seq<string>, order: Order, env: Env): seq<string> {
    if !IsItPending(order.status) then AddError(errors, PendingMessage)
    else AddAll(errors, Raised(order, env))
  }

  /** Every condition `check_currency_over_country`, `check_min_amount`, `check_supported_country`, `check_valid_email` and `check_payment_method` demand of an order. */
  predicate Acceptable(order: Order, env: Env) {
    var c := env.constants;
    var pm := order.paymentMethod;
    var country := Lower(order.billingCountry);
    CurrencyAccepted(env.storeCurrency, order.billingCountry, c)
    && order.total >= 1.0
    && CountrySupported(order.billingCountry, c)
    && env.isValidEmail(order.billingEmail)
    && (!Empty(pm) ==>
          pm != AccountMethod
          && pm in c.gatewayToPaymentTypeCode
          && (country in c.gatewaysByCountry ==> pm in c.gatewaysByCountry[country]))
  }

  /** As written, the pending check holds for every status and so never adds its message. */
  lemma PendingCheckAlwaysPasses(status: string)
    ensures IsItPending(status)
  {
    NegationNeverIdenticalToString(Str(status), "pending");
  }

  /** Each check adds at most one fixed message, and adds it exactly when its condition fails. */
  lemma ChecksAddAtMostOneMessage(order: Order, env: Env)
    ensures var r := CurrencyCheck(order, env.storeCurrency, env.constants);
      (r == [] <==> CurrencyAccepted(env.storeCurrency, order.billingCountry, env.constants))
      && (r != [] ==> r == [CurrencyMessage(env.storeCurrency)])
    ensures MinAmountCheck(order) == [] <==> order.total >= 1.0
    ensures MinAmountCheck(order) != [] ==> MinAmountCheck(order) == [MinAmountMessage]
    ensures SupportedCountryCheck(order, env.constants) == [] <==> Lower(order.billingCountry) in env.constants.allCountries
    ensures SupportedCountryCheck(order, env.constants) != [] ==> SupportedCountryCheck(order, env.constants) == [CountryMessage]
    ensures EmailCheck(order, env.isValidEmail) == [] <==> env.isValidEmail(order.billingEmail)
    ensures EmailCheck(order, env.isValidEmail) != [] ==> EmailCheck(order, env.isValidEmail) == [EmailMessage]
    ensures |PaymentMethodCheck(order, env.constants)| <= 1
    ensures |Raised(order, env)| <= 5
  {
  }

  /**
   * `check_payment_method` adds one message, chosen in priority order: the
   * EBANX account method, then a method with no payment type code, then a
   * method the billing country's list does not contain. A country that has
   * no list restricts nothing.
   */
  lemma PaymentMethodPriority(order: Order, c: Constants)
    ensures var r := PaymentMethodCheck(order, c); var pm := order.paymentMethod;
      var country := Lower(order.billingCountry);
      |r| <= 1
      && (pm == AccountMethod ==> r == [AccountMessage])
      && (AccountMessage in r <==> pm == AccountMethod)
      && (UnsupportedMethodMessage in r <==> pm != AccountMethod && pm !in c.gatewayToPaymentTypeCode)
      && (MethodCountryMessage in r ==>
            pm != AccountMethod && pm in c.gatewayToPaymentTypeCode
            && country in c.gatewaysByCountry && pm !in c.gatewaysByCountry[country])
      && (r == [MethodCountryMessage] <==>
            pm != AccountMethod && pm in c.gatewayToPaymentTypeCode
            && country in c.gatewaysByCountry && pm !in c.gatewaysByCountry[country])
      && (country !in c.gatewaysByCountry ==> MethodCountryMessage !in r)
      && (r == [] <==> (pm != AccountMethod && pm in c.gatewayToPaymentTypeCode
            && (country in c.gatewaysByCountry ==> pm in c.gatewaysByCountry[country])))
  {
  }

  /** No message a check raises is the pending message. */
  lemma PendingMessageNotRaised(order: Order, env: Env)
    ensures PendingMessage !in Raised(order, env)
  {
    var cm := CurrencyMessage(env.storeCurrency);
    assert cm[0] == 'W';
    assert PendingMessage[0] == 'Y';
    assert PendingMessage != cm;
    assert PendingMessage != MinAmountMessage;
    assert PendingMessage != CountryMessage;
    assert PendingMessage != EmailMessage;
    assert PendingMessage != AccountMessage;
    assert PendingMessage != UnsupportedMethodMessage;
    assert PendingMessage != MethodCountryMessage;
  }

  /**
   * The order's status has no influence on validation: every check runs
   * whatever the status, and the pending message never appears unless it was
   * already in the list.
   */
  lemma ValidationIgnoresStatus(errors: seq<string>, order: Order, env: Env, status: string)
    ensures ValidateErrors(errors, order.(status := status), env) == ValidateErrors(errors, order, env)
    ensures ValidateErrors(errors, order, env) == AddAll(errors, Raised(order, env))
    ensures PendingMessage in ValidateErrors(errors, order, env) ==> PendingMessage in errors
  {
    ValidateRunsEveryCheck(errors, order, env);
    ValidateRunsEveryCheck(errors, order.(status := status), env);
    RaisedIgnoresStatus(order, env, status);
    PendingMessageNotRaised(order, env);
  }

  /** The checks after the pending gate do not read the status. */
  lemma RaisedIgnoresStatus(order: Order, env: Env, status: string)
    ensures Raised(order.(status := status), env) == Raised(order, env)
  {
  }

  /** As written, `validate` always gets past the pending gate and runs every other check. */
  lemma ValidateRunsEveryCheck(errors: seq<string>, order: Order, env: Env)
    ensures ValidateErrors(errors, order, env) == AddAll(errors, Raised(order, env))
  {
    PendingCheckAlwaysPasses(order.status);
  }

  /** Starting from an empty list, validation reports no error exactly when the order is acceptable. */
  lemma ValidationCleanIff(order: Order, env: Env)
    ensures ValidateErrors([], order, env) == [] <==> Acceptable(order, env)
  {
    ValidationIgnoresStatus([], order, env, order.status);
    var r := Raised(order, env);
    assert AddAll([], r) == [] <==> r == [] by {
      if r != [] { assert r[0] in AddAll([], r); }
    }
  }

  /** Errors left by an earlier call keep every later validation from passing. */
  lemma StaleErrorsFailValidation(errors: seq<string>, order: Order, env: Env)
    requires errors != []
    ensures |ValidateErrors(errors, order, env)| >= |errors| > 0
  {
    ValidationIgnoresStatus(errors, order, env, order.status);
  }

  // ---------------------------------------------------------------------
  // The request payload

  datatype Payload = Payload(
    name: string,
    email: string,
    country: string,
    paymentTypeCode: Option<string>,   // None: a method with no code reads as null
    merchantPaymentCode: string,
    currencyCode: string,
    amount: real)

  /** The array `send_request` builds. */
  function BuildPayload(order: Order, currency: string, c: Constants, timeToken: string): (p: Payload)
    ensures |p.name| == |order.billingFirstName| + 1 + |order.billingLastName|
    ensures p.name[..|order.billingFirstName|] == order.billingFirstName
    ensures p.name[|order.billingFirstName|] == ' '
    ensures p.name[|order.billingFirstName| + 1..] == order.billingLastName
    ensures p.email == order.billingEmail && p.amount == order.total
    ensures Lower(p.country) == p.country == Lower(order.billingCountry)
    ensures p.currencyCode == Upper(currency)
    ensures forall i :: 0 <= i < |p.currencyCode| ==> !IsLowerAscii(p.currencyCode[i])
    ensures |p.currencyCode| == |currency|
    ensures Empty(order.paymentMethod) ==> p.paymentTypeCode == Some(AllMethodsCode)
    ensures !Empty(order.paymentMethod) ==>
      (p.paymentTypeCode.Some? <==> order.paymentMethod in c.gatewayToPaymentTypeCode)
    ensures !Empty(order.paymentMethod) && p.paymentTypeCode.Some? ==>
      p.paymentTypeCode.value == c.gatewayToPaymentTypeCode[order.paymentMethod]
    ensures p.merchantPaymentCode == NatToString(order.id) + "_" + timeToken
  {
    var pm := order.paymentMethod;
    var p := Payload(
      order.billingFirstName + " " + order.billingLastName,
      order.billingEmail,
      Lower(order.billingCountry),
      if Empty(pm) then Some(AllMethodsCode)
      else if pm in c.gatewayToPaymentTypeCode then Some(c.gatewayToPaymentTypeCode[pm])
      else None,
      NatToString(order.id) + "_" + timeToken,
      Upper(currency),
      order.total);
    LowerIdempotent(order.billingCountry);
    p
  }

  /** Orders with distinct ids get distinct merchant payment codes, whatever the time tokens. */
  lemma MerchantCodesDiffer(o1: Order, o2: Order, currency: string, c: Constants, t1: string, t2: string)
    requires o1.id != o2.id
    ensures BuildPayload(o1, currency, c, t1).merchantPaymentCode
      != BuildPayload(o2, currency, c, t2).merchantPaymentCode
  {
    var a, b := NatToString(o1.id), NatToString(o2.id);
    var x, y := a + "_" + t1, b + "_" + t2;
    if x == y {
      // Position k is the shorter run's `_`; a digit there would differ from it.
      var k := if |a| < |b| then |a| else |b|;
      assert x[k] == y[k];
      assert x[k] == '_' <==> k == |a|;
      assert y[k] == '_' <==> k == |b|;
      assert a == x[..|a|] == y[..|b|] == b;
      NatToStringInjective(o1.id, o2.id);
    }
  }

  /**
   * When no mapped payment type code is the sentinel, the payload asks for
   * all methods exactly when the order has no payment method.
   */
  lemma AllMethodsExactlyWhenNoMethod(order: Order, currency: string, c: Constants, timeToken: string)
    requires forall m :: m in c.gatewayToPaymentTypeCode ==> c.gatewayToPaymentTypeCode[m] != AllMethodsCode
    ensures BuildPayload(order, currency, c, timeToken).paymentTypeCode == Some(AllMethodsCode)
      <==> Empty(order.paymentMethod)
  {
  }

  /**
   * A payload built for an order that passed validation has a payment type
   * code and a supported country, and its method is allowed there.
   */
  lemma ValidatedPayloadIsComplete(order: Order, env: Env)
    requires ValidateErrors([], order, env) == []
    ensures var p := BuildPayload(order, env.storeCurrency, env.constants, env.timeToken);
      p.paymentTypeCode.Some?
      && p.country in env.constants.allCountries
      && ((p.country in env.constants.gatewaysByCountry && !Empty(order.paymentMethod))
            ==> order.paymentMethod in env.constants.gatewaysByCountry[p.country])
  {
    ValidationCleanIff(order, env);
  }

  // ---------------------------------------------------------------------
  // The platform state and the state of the whole pipeline

  datatype Note = Note(orderId: nat, text: string)

  datatype MetaKey = MetaKey(postId: nat, key: string)

  /** A request the SDK was asked to send, with the configuration and mode in force. */
  datatype SdkRequest = SdkRequest(config: Config, directMode: bool, payload: Payload)

  /** The class's error list together with the platform state it touches. */
  datatype World = World(
    errors: seq<string>,
    flash: seq<string>,
    notes: seq<Note>,
    meta: map<MetaKey, Option<string>>,
    sdkConfig: Config,
    directMode: bool,
    requests: seq<SdkRequest>)

  /** `can_create_payment`. */
  predicate CanCreatePayment(env: Env) {
    env.canEditPost && !env.isAutosave && !env.isRevision
  }

  /** `send_errors`: the flash store holds exactly the error list. */
  function SendErrorsSpec(w: World): World {
    w.(flash := w.errors)
  }

  function AddErrorSpec(w: World, e: string): World {
    w.(errors := AddError(w.errors, e))
  }

  /** `post_request`: one note on the order, then the hash and the URL as post metadata. */
  function PostRequestSpec(w: World, postId: nat, orderId: nat, hash: Option<string>, url: Option<string>): World {
    w.(notes := w.notes + [Note(orderId, OrderCreatedNote)],
       meta := w.meta[MetaKey(postId, PaymentHashKey) := hash][MetaKey(postId, CheckoutUrlKey) := url])
  }

  /** `send_request`: configure the SDK, send the payload, and on an exception add and flash its message. */
  function SendRequestSpec(w: World, config: Config, env: Env): World {
    var p := BuildPayload(env.order, env.storeCurrency, env.constants, env.timeToken);
    var sent := w.(sdkConfig := config, directMode := false,
                   requests := w.requests + [SdkRequest(config, false, p)]);
    match env.outcome
    case Threw(m) => SendErrorsSpec(AddErrorSpec(sent, m))
    case Responded(_) => sent
  }

  /** What `send_request` returns: the response, or `false` (None) after an exception. */
  function RequestResult(outcome: Outcome): Option<Response> {
    match outcome
    case Responded(r) => Some(r)
    case Threw(_) => None
  }

  /** The message added for a response whose status is not SUCCESS. */
  function ResponseErrorMessage(r: Response, debug: bool): string {
    if debug then r.statusCode + ": " + r.statusMessage else GenericRequestMessage
  }

  /** `create`, run against the state `w`. */
  function CreateSpec(w: World, postId: nat, config: Config, env: Env): World {
    if !CanCreatePayment(env) then w
    else
      var v := w.(errors := ValidateErrors(w.errors, env.order, env));
      if |v.errors| != 0 then SendErrorsSpec(v)
      else
        var s := SendRequestSpec(v, config, env);
        var request := RequestResult(env.outcome);
        if request.Some? && request.value.status != "SUCCESS" then
          SendErrorsSpec(AddErrorSpec(s, ResponseErrorMessage(request.value, env.debug)))
        else
          // `$request->payment->hash` on `false` reads as null
          var hash := if request.Some? then Some(request.value.paymentHash) else None;
          var url := if request.Some? then Some(request.value.redirectUrl) else None;
          PostRequestSpec(s, postId, env.order.id, hash, url)
  }

  // ---------------------------------------------------------------------
  // Properties of `create`

  /** Without permission (or on an autosave or a revision) nothing at all happens. */
  lemma CreateWithoutPermissionChangesNothing(w: World, postId: nat, config: Config, env: Env)
    requires !CanCreatePayment(env)
    ensures CreateSpec(w, postId, config, env) == w
  {
  }

  /** When validation reports errors they are flashed, and no request, note or metadata follows. */
  lemma CreateWithErrorsSendsNothing(w: World, postId: nat, config: Config, env: Env)
    requires CanCreatePayment(env)
    requires ValidateErrors(w.errors, env.order, env) != []
    ensures var r := CreateSpec(w, postId, config, env);
      r.errors == ValidateErrors(w.errors, env.order, env)
      && r.flash == r.errors
      && r.requests == w.requests && r.notes == w.notes && r.meta == w.meta
      && r.sdkConfig == w.sdkConfig && r.directMode == w.directMode
  {
  }

  /**
   * On a SUCCESS response exactly one note is added, the hash and the
   * redirect URL are stored under the post id, and no other metadata changes.
   */
  lemma CreateOnSuccessRecordsLink(w: World, postId: nat, config: Config, env: Env, resp: Response)
    requires CanCreatePayment(env)
    requires ValidateErrors(w.errors, env.order, env) == []
    requires env.outcome == Responded(resp) && resp.status == "SUCCESS"
    ensures var r := CreateSpec(w, postId, config, env);
      r.notes == w.notes + [Note(env.order.id, OrderCreatedNote)]
      && r.meta[MetaKey(postId, PaymentHashKey)] == Some(resp.paymentHash)
      && r.meta[MetaKey(postId, CheckoutUrlKey)] == Some(resp.redirectUrl)
      && r.meta.Keys == w.meta.Keys + {MetaKey(postId, PaymentHashKey), MetaKey(postId, CheckoutUrlKey)}
      && (forall k :: k in w.meta && k != MetaKey(postId, PaymentHashKey) && k != MetaKey(postId, CheckoutUrlKey)
            ==> r.meta[k] == w.meta[k])
      && r.errors == [] && r.flash == w.flash
      && r.requests == w.requests + [SdkRequest(config, false,
           BuildPayload(env.order, env.storeCurrency, env.constants, env.timeToken))]
  {
  }

  /**
   * On a response whose status is not SUCCESS the only error is the response
   * message (the raw code and message under WP_DEBUG, the generic text
   * otherwise); it is flashed and no note or metadata is written.
   */
  lemma CreateOnRejectionReportsOneError(w: World, postId: nat, config: Config, env: Env, resp: Response)
    requires CanCreatePayment(env)
    requires ValidateErrors(w.errors, env.order, env) == []
    requires env.outcome == Responded(resp) && resp.status != "SUCCESS"
    ensures var r := CreateSpec(w, postId, config, env);
      r.errors == [if env.debug then resp.statusCode + ": " + resp.statusMessage else GenericRequestMessage]
      && r.flash == r.errors
      && r.notes == w.notes && r.meta == w.meta
      && |r.requests| == |w.requests| + 1
  {
  }

  /**
   * On an exception its message is the only error and is flashed, and the
   * note and both metadata entries are still written, with null values.
   */
  lemma CreateOnExceptionStillPosts(w: World, postId: nat, config: Config, env: Env, message: string)
    requires CanCreatePayment(env)
    requires ValidateErrors(w.errors, env.order, env) == []
    requires env.outcome == Threw(message)
    ensures var r := CreateSpec(w, postId, config, env);
      r.errors == [message] && r.flash == [message]
      && r.notes == w.notes + [Note(env.order.id, OrderCreatedNote)]
      && r.meta == w.meta[MetaKey(postId, PaymentHashKey) := None][MetaKey(postId, CheckoutUrlKey) := None]
      && |r.requests| == |w.requests| + 1
  {
  }

  /**
   * A request is sent exactly when the permission gate passes, no error is
   * left from an earlier call and the order is acceptable; the order note is
   * added exactly when, in addition, the gateway did not answer with a
   * non-SUCCESS status.
   */
  lemma CreateSendsExactlyWhenValid(w: World, postId: nat, config: Config, env: Env)
    ensures var r := CreateSpec(w, postId, config, env);
      var sends := CanCreatePayment(env) && w.errors == [] && Acceptable(env.order, env);
      var rejected := env.outcome.Responded? && env.outcome.response.status != "SUCCESS";
      |r.requests| == |w.requests| + (if sends then 1 else 0)
      && |r.notes| == |w.notes| + (if sends && !rejected then 1 else 0)
      && (!sends || rejected ==> r.meta == w.meta)
  {
    ValidationIgnoresStatus(w.errors, env.order, env, env.order.status);
    if w.errors == [] {
      ValidationCleanIff(env.order, env);
    }
  }

  /** `create` keeps the error list duplicate-free, and whatever it flashes is that list. */
  lemma CreateKeepsErrorsDuplicateFree(w: World, postId: nat, config: Config, env: Env)
    requires NoDuplicates(w.errors)
    ensures var r := CreateSpec(w, postId, config, env);
      NoDuplicates(r.errors) && (r.flash != w.flash ==> r.flash == r.errors)
  {
    var r := CreateSpec(w, postId, config, env);
    if CanCreatePayment(env) {
      var errs := ValidateErrors(w.errors, env.order, env);
      PendingCheckAlwaysPasses(env.order.status);
      assert NoDuplicates(errs);
      if errs == [] {
        match env.outcome {
          case Threw(m) =>
            assert r.errors == [m] && r.flash == [m];
          case Responded(resp) =>
            if resp.status != "SUCCESS" {
              assert r.errors == [ResponseErrorMessage(resp, env.debug)] && r.flash == r.errors;
            } else {
              assert r.errors == [] && r.flash == w.flash;
            }
        }
      }
    }
  }

  /**
   * The error list is never reset: once a call has left an error behind,
   * every later call in the same process sends nothing and writes no note
   * and no metadata.
   */
  lemma StaleErrorsBlockLaterCalls(w: World, postId: nat, config: Config, env: Env)
    requires w.errors != []
    ensures var r := CreateSpec(w, postId, config, env);
      r.requests == w.requests && r.notes == w.notes && r.meta == w.meta
      && w.errors <= r.errors
  {
    StaleErrorsFailValidation(w.errors, env.order, env);
  }

  // ---------------------------------------------------------------------
  // Concrete scenarios

  /** Three countries' worth of constant tables for the scenarios below. */
  function SampleConstants(): Constants {
    Constants(
      map["br" := "BRL", "mx" := "MXN", "pe" := "PEN"],
      ["br", "mx", "pe"],
      map["ebanx-banking-ticket" := "boleto", "ebanx-oxxo" := "oxxo"],
      map["br" := ["ebanx-banking-ticket"], "mx" := ["ebanx-oxxo"]])
  }

  function SampleEnv(order: Order, emailOk: bool): Env {
    Env(true, false, false, order, "BRL", (e: string) => emailOk, SampleConstants(),
        false, "token", Responded(Response("SUCCESS", "", "", "hash", "url")))
  }

  /** A Brazilian order of 0.50 BRL with everything else valid raises only the minimum amount error. */
  lemma SmallBrazilianOrderOnlyFailsMinimum()
    ensures var o := Order(7, "pending", "Ana", "Silva", "ana@example.com", "BR", "", 0.5);
      ValidateErrors([], o, SampleEnv(o, true)) == [MinAmountMessage]
  {
    var o := Order(7, "pending", "Ana", "Silva", "ana@example.com", "BR", "", 0.5);
    var env := SampleEnv(o, true);
    assert Lower("BR") == "br";
    assert CurrencyCheck(o, env.storeCurrency, env.constants) == [];
    assert SupportedCountryCheck(o, env.constants) == [];
    assert Raised(o, env) == [MinAmountMessage];
    ValidationIgnoresStatus([], o, env, o.status);
  }

  /** A completed order is validated like a pending one: no pending error, and with valid fields no error at all. */
  lemma CompletedOrderPassesValidation()
    ensures var o := Order(7, "completed", "Ana", "Silva", "ana@example.com", "BR", "ebanx-banking-ticket", 10.0);
      ValidateErrors([], o, SampleEnv(o, true)) == []
  {
    var o := Order(7, "completed", "Ana", "Silva", "ana@example.com", "BR", "ebanx-banking-ticket", 10.0);
    var env := SampleEnv(o, true);
    assert Lower("BR") == "br";
    assert CurrencyCheck(o, env.storeCurrency, env.constants) == [];
    assert SupportedCountryCheck(o, env.constants) == [];
    assert PaymentMethodCheck(o, env.constants) == [];
    assert Raised(o, env) == [];
    ValidationIgnoresStatus([], o, env, o.status);
  }

  /**
   * The EBANX account method raises the account error, but the checks before
   * it still run: with an invalid e-mail both errors are reported.
   */
  lemma AccountMethodDoesNotSilenceOtherChecks()
    ensures var o := Order(7, "pending", "Ana", "Silva", "ana@example.com", "BR", AccountMethod, 10.0);
      ValidateErrors([], o, SampleEnv(o, true)) == [AccountMessage]
      && ValidateErrors([], o, SampleEnv(o, false)) == [EmailMessage, AccountMessage]
  {
    var o := Order(7, "pending", "Ana", "Silva", "ana@example.com", "BR", AccountMethod, 10.0);
    var good, bad := SampleEnv(o, true), SampleEnv(o, false);
    assert Lower("BR") == "br";
    assert CurrencyCheck(o, good.storeCurrency, good.constants) == [];
    assert SupportedCountryCheck(o, good.constants) == [];
    assert PaymentMethodCheck(o, good.constants) == [AccountMessage];
    assert Raised(o, good) == [AccountMessage];
    assert Raised(o, bad) == [EmailMessage, AccountMessage];
    assert EmailMessage != AccountMessage;
    assert AddAll([], [EmailMessage, AccountMessage]) == [EmailMessage, AccountMessage] by {
      assert [EmailMessage, AccountMessage][1..] == [AccountMessage];
    }
    ValidationIgnoresStatus([], o, good, o.status);
    ValidationIgnoresStatus([], o, bad, o.status);
  }

  // ---------------------------------------------------------------------
  // The imperative model

  /** The WordPress, WooCommerce and EBANX SDK state the pipeline writes to. */
  class Platform {
    var flash: seq<string>                    // WC_EBANX_Flash
    var notes: seq<Note>                      // add_order_note
    var meta: map<MetaKey, Option<string>>    // update_post_meta
    var sdkConfig: Config                     // \Ebanx\Config::set
    var directMode: bool                      // \Ebanx\Config::setDirectMode
    var requests: seq<SdkRequest>             // \Ebanx\EBANX::doRequest

    constructor ()
      ensures flash == [] && notes == [] && meta == map[] && requests == []
      ensures sdkConfig == map[] && !directMode
    {
      flash, notes, meta, requests := [], [], map[], [];
      sdkConfig, directMode := map[], false;
    }

    method ClearMessages()
      modifies this`flash
      ensures flash == []
    {
      flash := [];
    }

    method AddMessage(m: string)
      modifies this`flash
      ensures flash == old(flash) + [m]
    {
      flash := flash + [m];
    }

    method AddOrderNote(orderId: nat, text: string)
      modifies this`notes
      ensures notes == old(notes) + [Note(orderId, text)]
    {
      notes := notes + [Note(orderId, text)];
    }

    method UpdatePostMeta(postId: nat, key: string, value: Option<string>)
      modifies this`meta
      ensures meta == old(meta)[MetaKey(postId, key) := value]
    {
      meta := meta[MetaKey(postId, key) := value];
    }

    method ConfigSet(config: Config)
      modifies this`sdkConfig
      ensures sdkConfig == config
    {
      sdkConfig := config;
    }

    method SetDirectMode(direct: bool)
      modifies this`directMode
      ensures directMode == direct
    {
      directMode := direct;
    }

    /** Sends `payload` with the current configuration; `outcome` is what the remote side does. */
    method DoRequest(payload: Payload, outcome: Outcome) returns (o: Outcome)
      modifies this`requests
      ensures requests == old(requests) + [SdkRequest(sdkConfig, directMode, payload)]
      ensures o == outcome
    {
      requests := requests + [SdkRequest(sdkConfig, directMode, payload)];
      o := outcome;
    }
  }

  /** The static fields of `WC_EBANX_Payment_By_Link`; None stands for their initial null. */
  class PaymentByLink {
    var errors: seq<string>
    var postId: Option<nat>
    var order: Option<Order>
    var config: Option<Config>
    const wp: Platform

    constructor (wp: Platform)
      ensures errors == [] && postId == None && order == None && config == None
      ensures this.wp == wp
    {
      errors, postId, order, config := [], None, None, None;
      this.wp := wp;
    }

    ghost function State(): World
      reads this, wp
    {
      World(errors, wp.flash, wp.notes, wp.meta, wp.sdkConfig, wp.directMode, wp.requests)
    }

    /** The public entry point: sets the static fields, then runs the pipeline. */
    method Create(postId: nat, config: Config, env: Env)
      modifies this, wp
      ensures State() == CreateSpec(old(State()), postId, config, env)
      ensures this.postId == Some(postId) && order == Some(env.order) && this.config == Some(config)
    {
      this.postId := Some(postId);
      order := Some(env.order);
      this.config := Some(config);

      if !CanCreatePayment(env) {
        return;
      }

      var count := Validate(env);
      if count != 0 {
        SendErrors();
        return;
      }

      var request := SendRequest(env);
      if request.Some? && request.value.status != "SUCCESS" {
        RecordError(ResponseErrorMessage(request.value, env.debug));
        SendErrors();
        return;
      }

      var hash := if request.Some? then Some(request.value.paymentHash) else None;
      var url := if request.Some? then Some(request.value.redirectUrl) else None;
      PostRequest(hash, url);
    }

    method Validate(env: Env) returns (count: nat)
      requires order == Some(env.order)
      modifies this`errors
      ensures errors == ValidateErrors(old(errors), env.order, env)
      ensures count == |errors|
    {
      var pending := IsItPendingCheck();
      count := |errors|;
      if pending {
        ValidateAll(env);
        count := |errors|;
      }
    }

    /** The checks `validate` runs once the pending check has passed. */
    method ValidateAll(env: Env)
      requires order == Some(env.order)
      modifies this`errors
      ensures errors == AddAll(old(errors), Raised(env.order, env))
    {
      ghost var e0 := errors;
      var o := order.value;
      CheckCurrencyOverCountry(env);
      CheckMinAmount();
      CheckSupportedCountry(env);
      CheckValidEmail(env);
      if !Empty(o.paymentMethod) {
        CheckPaymentMethod(env);
      }
      ghost var c1 := CurrencyCheck(o, env.storeCurrency, env.constants);
      ghost var c2 := MinAmountCheck(o);
      ghost var c3 := SupportedCountryCheck(o, env.constants);
      ghost var c4 := EmailCheck(o, env.isValidEmail);
      ghost var c5 := if Empty(o.paymentMethod) then [] else PaymentMethodCheck(o, env.constants);
      AddAllConcat(e0, c1, c2);
      AddAllConcat(e0, c1 + c2, c3);
      AddAllConcat(e0, c1 + c2 + c3, c4);
      AddAllConcat(e0, c1 + c2 + c3 + c4, c5);
      assert c5 == [] ==> c1 + c2 + c3 + c4 + c5 == c1 + c2 + c3 + c4;
    }

    /** `send_errors`: clear the flash store, then push every error in order. */
    method SendErrors()
      modifies wp`flash
      ensures wp.flash == errors
    {
      wp.ClearMessages();
      for i := 0 to |errors|
        invariant wp.flash == errors[..i]
      {
        wp.AddMessage(errors[i]);
      }
    }

    method SendRequest(env: Env) returns (request: Option<Response>)
      requires order == Some(env.order) && config.Some?
      modifies this`errors, wp
      ensures State() == SendRequestSpec(old(State()), config.value, env)
      ensures request == RequestResult(env.outcome)
    {
      var o := order.value;
      var data := BuildPayload(o, env.storeCurrency, env.constants, env.timeToken);
      wp.ConfigSet(config.value);
      wp.SetDirectMode(false);
      request := None;
      var outcome := wp.DoRequest(data, env.outcome);
      match outcome {
        case Responded(r) =>
          request := Some(r);
        case Threw(m) =>
          RecordError(m);
          SendErrors();
      }
    }

    method PostRequest(hash: Option<string>, url: Option<string>)
      requires order.Some? && postId.Some?
      modifies wp`notes, wp`meta
      ensures State() == PostRequestSpec(old(State()), postId.value, order.value.id, hash, url)
    {
      wp.AddOrderNote(order.value.id, OrderCreatedNote);
      wp.UpdatePostMeta(postId.value, PaymentHashKey, hash);
      wp.UpdatePostMeta(postId.value, CheckoutUrlKey, url);
    }

    /** `add_error`. */
    method RecordError(e: string)
      modifies this`errors
      ensures errors == AddError(old(errors), e)
    {
      if e !in errors {
        errors := errors + [e];
      }
    }

    method IsItPendingCheck() returns (pending: bool)
      requires order.Some?
      modifies this`errors
      ensures pending == IsItPending(order.value.status)
      ensures errors == if pending then old(errors) else AddError(old(errors), PendingMessage)
    {
      // As written the condition never holds.
      var fires := Identical(Not(Str(order.value.status)), Str("pending"));
      errors := if fires then AddError(errors, PendingMessage) else errors;
      pending := !fires;
    }

    method CheckCurrencyOverCountry(env: Env)
      requires order.Some?
      modifies this`errors
      ensures errors == AddAll(old(errors), CurrencyCheck(order.value, env.storeCurrency, env.constants))
    {
      var currency := env.storeCurrency;
      var country := Lower(order.value.billingCountry);
      if currency != "USD" && currency != "EUR"
        && !(country in env.constants.localCurrencies && env.constants.localCurrencies[country] == currency)
      {
        RecordError(CurrencyMessage(currency));
      }
    }

    method CheckMinAmount()
      requires order.Some?
      modifies this`errors
      ensures errors == AddAll(old(errors), MinAmountCheck(order.value))
    {
      if order.value.total < 1.0 {
        RecordError(MinAmountMessage);
      }
    }

    method CheckSupportedCountry(env: Env)
      requires order.Some?
      modifies this`errors
      ensures errors == AddAll(old(errors), SupportedCountryCheck(order.value, env.constants))
    {
      if Lower(order.value.billingCountry) !in env.constants.allCountries {
        RecordError(CountryMessage);
      }
    }

    method CheckValidEmail(env: Env)
      requires order.Some?
      modifies this`errors
      ensures errors == AddAll(old(errors), EmailCheck(order.value, env.isValidEmail))
    {
      if !env.isValidEmail(order.value.billingEmail) {
        RecordError(EmailMessage);
      }
    }

    method CheckPaymentMethod(env: Env)
      requires order.Some?
      modifies this`errors
      ensures errors == AddAll(old(errors), PaymentMethodCheck(order.value, env.constants))
    {
      var pm := order.value.paymentMethod;
      var country := Lower(order.value.billingCountry);
      var c := env.constants;
      if pm == AccountMethod {
        RecordError(AccountMessage);
      } else if pm !in c.gatewayToPaymentTypeCode {
        RecordError(UnsupportedMethodMessage);
      } else if country in c.gatewaysByCountry && pm !in c.gatewaysByCountry[country] {
        RecordError(MethodCountryMessage);
      }
    }
  }
}
