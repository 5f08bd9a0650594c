/**
 * The error taxonomy of the actions framework core: five error kinds that a
 * destination raises, the registry of well-known error codes, the statuses a
 * retryable error may carry, and the default rule that decides from an HTTP
 * status whether a failed request is retried automatically.
 *
 * Every error is an immutable value; a TypeScript `undefined` is `None`.
 */
module Errors {
  import opened Wrappers

  // ---------------------------------------------------------------------------
  // Error codes
  // ---------------------------------------------------------------------------

  /** The standard error codes, in declaration order. */
  datatype ErrorCodes =
    | INVALID_AUTHENTICATION
    | PAYLOAD_VALIDATION_FAILED
    | INVALID_CURRENCY_CODE
    | RETRYABLE_ERROR
    | REFRESH_TOKEN_EXPIRED
    | OAUTH_REFRESH_FAILED
    | API_CALL_FAILED

  /**
   * The string value of a standard code: a non-empty run of upper-case
   * letters and underscores.
   */
  function CodeValue(c: ErrorCodes): (v: string)
    ensures |v| > 0
    ensures forall i :: 0 <= i < |v| ==> 'A' <= v[i] <= 'Z' || v[i] == '_'
  {
    match c
    case INVALID_AUTHENTICATION => "INVALID_AUTHENTICATION"
    case PAYLOAD_VALIDATION_FAILED => "PAYLOAD_VALIDATION_FAILED"
    case INVALID_CURRENCY_CODE => "INVALID_CURRENCY_CODE"
    case RETRYABLE_ERROR => "RETRYABLE_ERROR"
    case REFRESH_TOKEN_EXPIRED => "REFRESH_TOKEN_EXPIRED"
    case OAUTH_REFRESH_FAILED => "OAUTH_REFRESH_FAILED"
    case API_CALL_FAILED => "API_CALL_FAILED"
  }

  /**
   * The member of the enum declared under `name` (member access by key,
   * `ErrorCodes[name]`), or `None` when no member has that name.
   */
  function CodeNamed(name: string): (r: Option<ErrorCodes>)
    ensures forall c :: r == Some(c) <==> CodeValue(c) == name
  {
    if name == "INVALID_AUTHENTICATION" then Some(INVALID_AUTHENTICATION)
    else if name == "PAYLOAD_VALIDATION_FAILED" then Some(PAYLOAD_VALIDATION_FAILED)
    else if name == "INVALID_CURRENCY_CODE" then Some(INVALID_CURRENCY_CODE)
    else if name == "RETRYABLE_ERROR" then Some(RETRYABLE_ERROR)
    else if name == "REFRESH_TOKEN_EXPIRED" then Some(REFRESH_TOKEN_EXPIRED)
    else if name == "OAUTH_REFRESH_FAILED" then Some(OAUTH_REFRESH_FAILED)
    else if name == "API_CALL_FAILED" then Some(API_CALL_FAILED)
    else None
  }

  /** No two standard codes share a value. */
  lemma CodeValuesDistinct(c: ErrorCodes, d: ErrorCodes)
    ensures c != d ==> CodeValue(c) != CodeValue(d)
  {
  }

  /** The registry holds exactly seven distinct values. */
  lemma SevenCodeValues()
    ensures |set c: ErrorCodes :: CodeValue(c)| == 7
  {
    var values := set c: ErrorCodes :: CodeValue(c);
    assert values == {
      CodeValue(INVALID_AUTHENTICATION), CodeValue(PAYLOAD_VALIDATION_FAILED),
      CodeValue(INVALID_CURRENCY_CODE), CodeValue(RETRYABLE_ERROR),
      CodeValue(REFRESH_TOKEN_EXPIRED), CodeValue(OAUTH_REFRESH_FAILED),
      CodeValue(API_CALL_FAILED)
    };
  }

  // ---------------------------------------------------------------------------
  // Retryable statuses and the default retry rule
  // ---------------------------------------------------------------------------

  /**
   * The statuses a `RetryableError` may carry (the `RetryableStatusCodes`
   * union): all of them are 4xx or 5xx, and 501 is not among them.
   */
  predicate IsRetryableStatus(status: int)
    ensures IsRetryableStatus(status) ==> 408 <= status <= 599 && status != 501
  {
    || status == 408 || status == 423 || status == 429
    || status == 500 || status == 502 || status == 503 || status == 504
    || status == 505 || status == 506 || status == 507 || status == 508
    || status == 509 || status == 510 || status == 511
    || status == 598 || status == 599
  }

  /** All statuses of the allow-list. */
  function RetryableStatuses(): (statuses: set<int>)
    ensures forall s :: s in statuses <==> IsRetryableStatus(s)
  {
    set s | 400 <= s < 600 && IsRetryableStatus(s)
  }

  /** The allow-list has sixteen members. */
  lemma SixteenRetryableStatuses()
    ensures |RetryableStatuses()| == 16
  {
    assert RetryableStatuses() ==
      {408, 423, 429, 500, 502, 503, 504, 505, 506, 507, 508, 509, 510, 511, 598, 599};
  }

  /**
   * The default retry rule for a status: 4xx is not retried except 408, 423
   * and 429; 5xx is retried except 501. The rule says nothing about other
   * statuses, which are not retried here.
   *
   * The rule retries exactly the allow-listed statuses and the unassigned
   * 5xx statuses 512-597; in particular it retries every allow-listed status.
   */
  predicate DefaultRetry(status: int)
    ensures DefaultRetry(status) <==> IsRetryableStatus(status) || 512 <= status <= 597
  {
    if 400 <= status < 500 then status == 408 || status == 423 || status == 429
    else if 500 <= status < 600 then status != 501
    else false
  }

  // ---------------------------------------------------------------------------
  // Error kinds
  // ---------------------------------------------------------------------------

  /** An error raised by a destination; one constructor per error class. */
  datatype ErrorValue =
    | IntegrationError(message: string, code: Option<string>, status: Option<int>)
    | RetryableError(message: string, code: Option<string>, status: Option<int>)
    | InvalidAuthenticationError(message: string, code: Option<string>, status: Option<int>)
    | PayloadValidationError(message: string, code: Option<string>, status: Option<int>)
    | APIError(message: string, code: Option<string>, status: Option<int>)

  /**
   * `e instanceof IntegrationError`: the class itself and its two subclasses.
   * Exactly the two classes that extend the custom-error base directly are
   * left out.
   */
  predicate IsIntegrationError(e: ErrorValue)
    ensures IsIntegrationError(e) <==> !(e.RetryableError? || e.InvalidAuthenticationError?)
  {
    e.IntegrationError? || e.PayloadValidationError? || e.APIError?
  }

  /**
   * What each class fixes about its code and status. Every well-formed error
   * other than a plain integration error carries a status and a standard code.
   */
  predicate WellFormed(e: ErrorValue)
    ensures WellFormed(e) && !e.IntegrationError? ==>
      e.status.Some? && e.code.Some? && CodeNamed(e.code.value).Some?
  {
    match e
    case IntegrationError(_, _, _) => true
    case RetryableError(_, code, status) =>
      code == Some(CodeValue(RETRYABLE_ERROR)) && status.Some? && IsRetryableStatus(status.value)
    case InvalidAuthenticationError(_, code, status) =>
      code.Some? && CodeNamed(code.value).Some? && status == Some(401)
    case PayloadValidationError(_, code, status) =>
      code == Some(CodeValue(PAYLOAD_VALIDATION_FAILED)) && status == Some(400)
    case APIError(_, code, status) =>
      code == Some(CodeValue(API_CALL_FAILED)) && status == Some(400)
  }

  /**
   * Whether the error is retried automatically, as each class documents it:
   * a retryable error always, an authentication, payload-validation or API
   * error never, a plain integration error by the default rule on its status.
   */
  predicate Retried(e: ErrorValue)
    ensures e.RetryableError? ==> Retried(e)
    ensures Retried(e) ==> e.RetryableError? || e.IntegrationError?
  {
    match e
    case RetryableError(_, _, _) => true
    case InvalidAuthenticationError(_, _, _) => false
    case PayloadValidationError(_, _, _) => false
    case APIError(_, _, _) => false
    case IntegrationError(_, _, status) => status.Some? && DefaultRetry(status.value)
  }

  /**
   * The kinds never contradict their statuses: a well-formed error is retried
   * exactly when the default rule retries its status.
   */
  lemma RetriedAgreesWithStatus(e: ErrorValue)
    requires WellFormed(e)
    ensures Retried(e) <==> e.status.Some? && DefaultRetry(e.status.value)
  {
  }

  // ---------------------------------------------------------------------------
  // Constructors
  // ---------------------------------------------------------------------------

  /** `new IntegrationError(message = '', code?, status?)`. */
  function NewIntegrationError(message: Option<string>, code: Option<string>, status: Option<int>): (e: ErrorValue)
    ensures e.IntegrationError? && IsIntegrationError(e) && WellFormed(e)
    ensures e.message == message.GetOr("") && e.code == code && e.status == status
    ensures Retried(e) <==> status.Some? && DefaultRetry(status.value)
  {
    IntegrationError(message.GetOr(""), code, status)
  }

  /** `new RetryableError(message = '', status = 500)`; the status is one of the allow-list. */
  function NewRetryableError(message: Option<string>, status: Option<int>): (e: ErrorValue)
    requires status.Some? ==> IsRetryableStatus(status.value)
    ensures e.RetryableError? && !IsIntegrationError(e) && WellFormed(e) && Retried(e)
    ensures e.message == message.GetOr("")
    ensures e.code == Some("RETRYABLE_ERROR")
    ensures status.Some? ==> e.status == status
    ensures status.None? ==> e.status == Some(500)
    ensures e.status.Some? && e.status.value != 501 && DefaultRetry(e.status.value)
  {
    RetryableError(message.GetOr(""), Some(CodeValue(RETRYABLE_ERROR)), Some(status.GetOr(500)))
  }

  /**
   * `new InvalidAuthenticationError(message = '', code = INVALID_AUTHENTICATION)`;
   * the code parameter takes its type, the `ErrorCodes` enum, from its default.
   */
  function NewInvalidAuthenticationError(message: Option<string>, code: Option<ErrorCodes>): (e: ErrorValue)
    ensures e.InvalidAuthenticationError? && !IsIntegrationError(e) && WellFormed(e) && !Retried(e)
    ensures e.message == message.GetOr("")
    ensures code.Some? ==> e.code == Some(CodeValue(code.value))
    ensures code.None? ==> e.code == Some("INVALID_AUTHENTICATION")
    ensures e.status == Some(401) && !DefaultRetry(401)
  {
    InvalidAuthenticationError(message.GetOr(""), Some(CodeValue(code.GetOr(INVALID_AUTHENTICATION))), Some(401))
  }

  /** `new PayloadValidationError(message)`: an integration error with a fixed code and status 400. */
  function NewPayloadValidationError(message: string): (e: ErrorValue)
    ensures e.PayloadValidationError? && IsIntegrationError(e) && WellFormed(e) && !Retried(e)
    ensures e.message == message
    ensures e.code == Some("PAYLOAD_VALIDATION_FAILED")
    ensures e.status == Some(400) && !DefaultRetry(400)
  {
    var base := NewIntegrationError(Some(message), Some(CodeValue(PAYLOAD_VALIDATION_FAILED)), Some(400));
    PayloadValidationError(base.message, base.code, base.status)
  }

  /** `new APIError(message)`: an integration error with a fixed code and status 400. */
  function NewAPIError(message: string): (e: ErrorValue)
    ensures e.APIError? && IsIntegrationError(e) && WellFormed(e) && !Retried(e)
    ensures e.message == message
    ensures e.code == Some("API_CALL_FAILED")
    ensures e.status == Some(400) && !DefaultRetry(400)
  {
    var base := NewIntegrationError(Some(message), Some(CodeValue(API_CALL_FAILED)), Some(400));
    APIError(base.message, base.code, base.status)
  }

  /**
   * The well-formed errors are exactly those the constructors build: each
   * well-formed value is what its constructor returns for its own fields.
   */
  lemma WellFormedIsConstructed(e: ErrorValue)
    requires WellFormed(e)
    ensures match e
      case IntegrationError(m, c, s) => e == NewIntegrationError(Some(m), c, s)
      case RetryableError(m, _, s) => e == NewRetryableError(Some(m), s)
      case InvalidAuthenticationError(m, c, _) => e == NewInvalidAuthenticationError(Some(m), CodeNamed(c.value))
      case PayloadValidationError(m, _, _) => e == NewPayloadValidationError(m)
      case APIError(m, _, _) => e == NewAPIError(m)
  {
  }
}
