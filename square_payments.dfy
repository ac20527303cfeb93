/** Card payments through Square (backend/src/square_payments.rs): the
    client's base URL chosen by environment, the payment request built from
    the caller's payload with defaults for the idempotency key and location,
    and the classification of Square's answer into an error, a payment or
    nothing. The HTTP exchange and the fresh UUID are parameters. */
module SquarePayments {
  import opened Wrappers
  import opened Text
  import opened HttpStatus

  const PRODUCTION_URL: string := "https://connect.squareup.com"
  const SANDBOX_URL: string := "https://connect.squareupsandbox.com"
  const DEFAULT_ENVIRONMENT: string := "sandbox"
  const DEFAULT_LOCATION_ID: string := "LP7V5561FPK0B"
  const PAYMENT_NOTE: string := "E-commerce platform payment"
  const SQUARE_VERSION: string := "2025-05-21"
  const NO_PAYMENT: string := "No payment data returned from Square"

  /** Rust's `i64`. */
  type Int64 = x: int | -0x8000_0000_0000_0000 <= x < 0x8000_0000_0000_0000

  datatype SquareClient = SquareClient(accessToken: string, applicationId: string, environment: string, baseUrl: string)

  /** `SquareClient::new`. */
  function NewSquareClient(accessToken: string, applicationId: string, environment: string): (r: SquareClient)
    ensures r.accessToken == accessToken && r.applicationId == applicationId && r.environment == environment
  {
    SquareClient(accessToken, applicationId, environment,
                 if environment == "production" then PRODUCTION_URL else SANDBOX_URL)
  }

  /** Only the exact string "production" reaches the live API; every other
      environment, "Production" included, goes to the sandbox. */
  lemma BaseUrlChoice(accessToken: string, applicationId: string, environment: string)
    ensures NewSquareClient(accessToken, applicationId, environment).baseUrl == PRODUCTION_URL <==> environment == "production"
    ensures NewSquareClient(accessToken, applicationId, environment).baseUrl == SANDBOX_URL <==> environment != "production"
    ensures NewSquareClient(accessToken, applicationId, "Production").baseUrl == SANDBOX_URL
  {
    assert |PRODUCTION_URL| != |SANDBOX_URL|;
  }

  /** The environment variables the client and location come from. */
  datatype SquareEnv = SquareEnv(accessToken: Option<string>, applicationId: Option<string>,
                                 environment: Option<string>, locationId: Option<string>)

  /** `AppState::square_client`. */
  function ClientFromEnv(env: SquareEnv): Option<SquareClient> {
    if env.accessToken.None? || env.applicationId.None? then None
    else Some(NewSquareClient(env.accessToken.value, env.applicationId.value, env.environment.GetOr(DEFAULT_ENVIRONMENT)))
  }

  /** `AppState::square_location_id`. */
  function LocationIdFromEnv(env: SquareEnv): string {
    env.locationId.GetOr(DEFAULT_LOCATION_ID)
  }

  /** A client exists exactly when both the token and the application id are
      set; an unset environment means the sandbox. */
  lemma ClientFromEnvMeaning(env: SquareEnv)
    ensures ClientFromEnv(env).Some? <==> env.accessToken.Some? && env.applicationId.Some?
    ensures ClientFromEnv(env).Some? ==>
      && ClientFromEnv(env).value.accessToken == env.accessToken.value
      && ClientFromEnv(env).value.applicationId == env.applicationId.value
    ensures ClientFromEnv(env).Some? && env.environment.None? ==> ClientFromEnv(env).value.baseUrl == SANDBOX_URL
    ensures env.locationId.Some? ==> LocationIdFromEnv(env) == env.locationId.value
    ensures env.locationId.None? ==> LocationIdFromEnv(env) == DEFAULT_LOCATION_ID
  {
    if env.accessToken.Some? && env.applicationId.Some? && env.environment.None? {
      BaseUrlChoice(env.accessToken.value, env.applicationId.value, DEFAULT_ENVIRONMENT);
    }
  }

  // ---------------------------------------------------------------------------
  // The outgoing request

  datatype AmountMoney = AmountMoney(amount: Int64, currency: string)

  datatype Address = Address(addressLine1: Option<string>, addressLine2: Option<string>, locality: Option<string>,
                             administrativeDistrictLevel1: Option<string>, postalCode: Option<string>, country: Option<string>)

  /** What the storefront posts. */
  datatype SquarePaymentRequest = SquarePaymentRequest(amountMoney: AmountMoney, sourceId: string,
                                                       idempotencyKey: Option<string>, locationId: Option<string>)

  /** What is sent to Square. */
  datatype SquareCreatePaymentRequest = SquareCreatePaymentRequest(
    sourceId: string,
    idempotencyKey: string,
    amountMoney: AmountMoney,
    locationId: string,
    appFeeMoney: Option<AmountMoney>,
    autocomplete: Option<bool>,
    orderId: Option<string>,
    buyerEmailAddress: Option<string>,
    billingAddress: Option<Address>,
    shippingAddress: Option<Address>,
    note: Option<string>)

  /** The request built from the payload, with `freshKey` the new UUID and
      `defaultLocation` the configured location. */
  function BuildPaymentRequest(payload: SquarePaymentRequest, freshKey: string, defaultLocation: string): SquareCreatePaymentRequest {
    SquareCreatePaymentRequest(
      payload.sourceId,
      payload.idempotencyKey.GetOr(freshKey),
      payload.amountMoney,
      payload.locationId.GetOr(defaultLocation),
      None, Some(true), None, None, None, None, Some(PAYMENT_NOTE))
  }

  /** A supplied key and location are used verbatim, missing ones are
      defaulted; the card nonce and the amount pass through unchanged; the
      payment always autocompletes and carries the platform note, and no
      other optional field is set. */
  lemma BuildPaymentRequestMeaning(payload: SquarePaymentRequest, freshKey: string, defaultLocation: string)
    ensures var r := BuildPaymentRequest(payload, freshKey, defaultLocation);
      && r.idempotencyKey == (if payload.idempotencyKey.Some? then payload.idempotencyKey.value else freshKey)
      && r.locationId == (if payload.locationId.Some? then payload.locationId.value else defaultLocation)
      && r.sourceId == payload.sourceId && r.amountMoney == payload.amountMoney
      && r.autocomplete == Some(true) && r.note == Some(PAYMENT_NOTE)
      && r.appFeeMoney.None? && r.orderId.None? && r.buyerEmailAddress.None?
      && r.billingAddress.None? && r.shippingAddress.None?
  {
  }

  /** The key is defaulted only when missing: rebuilding from a request's own
      key and location with other defaults gives the same request. */
  lemma BuildPaymentRequestKeepsSupplied(payload: SquarePaymentRequest, key1: string, key2: string, loc1: string, loc2: string)
    ensures var r := BuildPaymentRequest(payload, key1, loc1);
      BuildPaymentRequest(payload.(idempotencyKey := Some(r.idempotencyKey), locationId := Some(r.locationId)), key2, loc2) == r
  {
  }

  // ---------------------------------------------------------------------------
  // The answer

  datatype SquareError = SquareError(category: string, code: string, detail: string, field: Option<string>)

  datatype Payment = Payment(id: string, status: string, amountMoney: AmountMoney, sourceType: string,
                             receiptNumber: Option<string>, receiptUrl: Option<string>)

  datatype SquarePaymentResponse = SquarePaymentResponse(payment: Option<Payment>, errors: Option<seq<SquareError>>)

  /** What the storefront receives on success. */
  datatype SquarePaymentIntentResponse = SquarePaymentIntentResponse(paymentId: string, status: string, receiptUrl: Option<string>)

  /** `format!("{}: {}", e.code, e.detail)` for each error, in order. */
  function ErrorEntries(errors: seq<SquareError>): (r: seq<string>)
    ensures |r| == |errors|
    ensures forall i :: 0 <= i < |errors| ==> r[i] == errors[i].code + ": " + errors[i].detail
  {
    if errors == [] then [] else [errors[0].code + ": " + errors[0].detail] + ErrorEntries(errors[1..])
  }

  function ErrorDetails(errors: seq<SquareError>): string {
    Join(ErrorEntries(errors), ", ")
  }

  function ClassifyResponse(response: SquarePaymentResponse): Result<SquarePaymentIntentResponse, (nat, string)> {
    match response.errors
    case Some(errors) => Failure((BAD_REQUEST, "Square API errors: " + ErrorDetails(errors)))
    case None =>
      match response.payment
      case Some(p) => Success(SquarePaymentIntentResponse(p.id, p.status, p.receiptUrl))
      case None => Failure((INTERNAL_SERVER_ERROR, NO_PAYMENT))
  }

  /** Errors win, even beside a payment and even when the list is empty; a
      payment alone is copied (id, status, receipt URL); nothing at all is a
      server error. */
  lemma ClassifyResponseMeaning(response: SquarePaymentResponse)
    ensures response.errors.Some? ==>
      ClassifyResponse(response) == Failure((BAD_REQUEST, "Square API errors: " + ErrorDetails(response.errors.value)))
    ensures response.errors.None? && response.payment.Some? ==>
      var p := response.payment.value;
      ClassifyResponse(response) == Success(SquarePaymentIntentResponse(p.id, p.status, p.receiptUrl))
    ensures response.errors.None? && response.payment.None? ==>
      ClassifyResponse(response) == Failure((INTERNAL_SERVER_ERROR, NO_PAYMENT))
    ensures ClassifyResponse(response).Success? <==> response.errors.None? && response.payment.Some?
    ensures response.errors == Some([]) ==> ClassifyResponse(response) == Failure((BAD_REQUEST, "Square API errors: "))
  {
    assert ErrorDetails([]) == "";
    assert "Square API errors: " + "" == "Square API errors: ";
  }

  /** One error is reported as "code: detail"; two are joined by ", " in
      their order. */
  lemma ErrorDetailsExamples(a: SquareError, b: SquareError)
    ensures ErrorDetails([a]) == a.code + ": " + a.detail
    ensures ErrorDetails([a, b]) == a.code + ": " + a.detail + ", " + b.code + ": " + b.detail
  {
    var x, y := a.code + ": " + a.detail, b.code + ": " + b.detail;
    assert ErrorEntries([a, b]) == [x, y];
    assert [x, y][1..] == [y];
    assert Join([x, y], ", ") == x + ", " + y;
  }

  // ---------------------------------------------------------------------------
  // The handler

  /** The POST to `/v2/payments` as sent. */
  datatype SquareHttpRequest = SquareHttpRequest(url: string, authorization: string, squareVersion: string,
                                                 body: SquareCreatePaymentRequest)

  datatype PaymentExchange = SendFailed(reason: string) | ParseFailed(reason: string) | Parsed(response: SquarePaymentResponse)

  function PaymentHttpRequest(client: SquareClient, body: SquareCreatePaymentRequest): SquareHttpRequest {
    SquareHttpRequest(client.baseUrl + "/v2/payments", "Bearer " + client.accessToken, SQUARE_VERSION, body)
  }

  /** `create_square_payment`, with `freshKey` the UUID it would generate. */
  function CreateSquarePayment(env: SquareEnv, payload: SquarePaymentRequest, freshKey: string,
                               post: SquareHttpRequest -> PaymentExchange): Result<SquarePaymentIntentResponse, (nat, string)>
  {
    match ClientFromEnv(env)
    case None => Failure((INTERNAL_SERVER_ERROR, "Square client not configured"))
    case Some(client) =>
      var request := PaymentHttpRequest(client, BuildPaymentRequest(payload, freshKey, LocationIdFromEnv(env)));
      match post(request)
      case SendFailed(e) => Failure((INTERNAL_SERVER_ERROR, "Square API request failed: " + e))
      case ParseFailed(e) => Failure((INTERNAL_SERVER_ERROR, "Failed to parse Square response: " + e))
      case Parsed(response) => ClassifyResponse(response)
  }

  /** Without a client nothing is sent and the answer is 500; otherwise the
      request built from the payload goes to the client's base URL with its
      bearer token, transport and parse failures are 500s, and a parsed
      answer is classified. Every failure is a 400 or a 500, and a 400 comes
      only from errors Square reported. */
  lemma CreateSquarePaymentMeaning(env: SquareEnv, payload: SquarePaymentRequest, freshKey: string,
                                   post: SquareHttpRequest -> PaymentExchange)
    ensures ClientFromEnv(env).None? ==>
      CreateSquarePayment(env, payload, freshKey, post) == Failure((INTERNAL_SERVER_ERROR, "Square client not configured"))
    ensures ClientFromEnv(env).Some? ==>
      var client := ClientFromEnv(env).value;
      var request := PaymentHttpRequest(client, BuildPaymentRequest(payload, freshKey, LocationIdFromEnv(env)));
      && request.url == client.baseUrl + "/v2/payments"
      && request.authorization == "Bearer " + env.accessToken.value
      && (post(request).Parsed? ==> CreateSquarePayment(env, payload, freshKey, post) == ClassifyResponse(post(request).response))
      && (!post(request).Parsed? ==> CreateSquarePayment(env, payload, freshKey, post).Failure?)
      && (CreateSquarePayment(env, payload, freshKey, post).Success? <==>
            post(request).Parsed? && post(request).response.errors.None? && post(request).response.payment.Some?)
    ensures var r := CreateSquarePayment(env, payload, freshKey, post);
      r.Failure? ==> r.error.0 == BAD_REQUEST || r.error.0 == INTERNAL_SERVER_ERROR
  {
    ClientFromEnvMeaning(env);
    if ClientFromEnv(env).Some? {
      var client := ClientFromEnv(env).value;
      var request := PaymentHttpRequest(client, BuildPaymentRequest(payload, freshKey, LocationIdFromEnv(env)));
      if post(request).Parsed? {
        ClassifyResponseMeaning(post(request).response);
      }
    }
  }
}
