# Error taxonomy of the actions framework core

This project models the error classes that destination plugins throw in the
actions framework (`packages/core/src/errors.ts`). It covers the five error
kinds, the registry of standard error codes, the sixteen statuses a retryable
error may carry, and the default retry rule that decides from an HTTP status
whether a failed request is retried automatically.

The TypeScript classes only set their fields once in their constructors, so each
error is modelled as an immutable value:

- `Errors.ErrorValue` has one constructor per class: `IntegrationError`,
  `RetryableError`, `InvalidAuthenticationError`, `PayloadValidationError` and
  `APIError`. Each one carries `message`, an optional `code` and an optional
  `status`.
- Each TypeScript constructor is a function (`NewIntegrationError`, …). A
  parameter the caller may omit is an `Option`, where `None` means
  `undefined` and selects the parameter's default.
- `IsIntegrationError` is `instanceof IntegrationError`. It holds for the
  class itself and for its subclasses `PayloadValidationError` and `APIError`.
  It does not hold for `RetryableError` or `InvalidAuthenticationError`, which
  extend the custom-error base class directly.
- `WellFormed` states what each class fixes about its code and status.
  `Retried` states the retry behaviour each class documents.
- `IsRetryableStatus` is the `RetryableStatusCodes` union. `DefaultRetry` is
  the rule from the `IntegrationError` doc comment: 4xx is not retried except
  408, 423 and 429, and 5xx is retried except 501.
- `ErrorCodes` is the enum of standard codes. `CodeValue` gives a code's string
  value. `CodeNamed` looks a member up by its declared name.

The source restricts the status of a `RetryableError` only through its type and
never checks it at run time. The model therefore states the restriction as the
precondition of `NewRetryableError`. It neither rejects nor clamps a status
outside the allow-list.

## Model

| member | source | states |
|---|---|---|
| `Errors.NewIntegrationError` | packages/core/src/errors.ts:9-22 | The error is an `IntegrationError`-kind value that keeps exactly the given code and status (absent when omitted). Its message defaults to `''`. It is retried exactly when its status is present and the default rule retries it. |
| `Errors.NewRetryableError` | packages/core/src/errors.ts:43-55 | For an allow-listed status (or none), the code is always `RETRYABLE_ERROR`. The status is the given one, or 500 when omitted. The result is never 501, the default rule retries it, and the error is retried. It is not an `IntegrationError` kind. |
| `Errors.NewInvalidAuthenticationError` | packages/core/src/errors.ts:57-71 | The status is always 401, and the caller cannot set it. The code is the value of the caller's `ErrorCodes` member, or `INVALID_AUTHENTICATION` when omitted. The error is never retried, and 401 is not retried under the default rule either. It is not an `IntegrationError` kind. |
| `Errors.NewPayloadValidationError` | packages/core/src/errors.ts:73-85 | The error has status 400 and code `PAYLOAD_VALIDATION_FAILED`, and it carries the given message unchanged. It is an `IntegrationError` kind. It is never retried, and neither is 400 under the default rule. |
| `Errors.NewAPIError` | packages/core/src/errors.ts:87-100 | The error has status 400 and code `API_CALL_FAILED`, and it carries the given message unchanged. It is an `IntegrationError` kind. It is never retried, and neither is 400 under the default rule. |
| `Errors.IsIntegrationError` | packages/core/src/errors.ts:9-100 | `instanceof IntegrationError`. It holds for `IntegrationError` and its subclasses `PayloadValidationError` and `APIError` (lines 78 and 93). It fails exactly for `RetryableError` and `InvalidAuthenticationError`, which extend the custom-error base class directly (lines 47 and 64). |
| `Errors.WellFormed` | packages/core/src/errors.ts:47-99 | The code and status each class fixes. A retryable error has code `RETRYABLE_ERROR` and an allow-listed status. An authentication error has status 401 and a standard code. The two subclasses have status 400 and their own codes. Every kind other than a plain integration error therefore carries a status and a standard code. `WellFormedIsConstructed` shows these are exactly the values the constructors build. |
| `Errors.Retried` | packages/core/src/errors.ts:3-99 | Whether each class's doc comment says it is retried. A `RetryableError` always is (lines 44-45). An authentication, payload-validation or API error never is (lines 62, 76 and 91). A plain integration error is retried when the default rule retries its status (lines 6-7). `RetriedAgreesWithStatus` shows this never contradicts the status. |
| `Errors.WellFormedIsConstructed` | packages/core/src/errors.ts:9-100 | The constructors build exactly the well-formed errors: every value meeting its class's fixed code and status is what its constructor returns for its own fields. |
| `Errors.RetriedAgreesWithStatus` | packages/core/src/errors.ts:3-99 | Each kind's documented retry behaviour agrees with the default rule on its status. A well-formed error is retried exactly when its status is present and the rule retries it. |
| `Errors.DefaultRetry` | packages/core/src/errors.ts:3-8 | The rule from the `IntegrationError` doc comment: 4xx is retried only for 408, 423 and 429, and 5xx except 501. Its contract shows it retries exactly the allow-listed statuses plus the unassigned 5xx statuses 512–597. So every allow-listed status is retried, and 501 and every other 4xx status are not. |
| `Errors.IsRetryableStatus` | packages/core/src/errors.ts:25-41 | The `RetryableStatusCodes` union as a predicate. Every member lies between 408 and 599, and 501 is not one. `DefaultRetry` retries every member, and `SixteenRetryableStatuses` counts them. |
| `Errors.RetryableStatuses` | packages/core/src/errors.ts:25-41 | The set of allow-listed statuses: a status is in it exactly when `IsRetryableStatus` holds. |
| `Errors.SixteenRetryableStatuses` | packages/core/src/errors.ts:25-41 | The allow-list has exactly sixteen distinct statuses. |
| `Errors.CodeNamed` | packages/core/src/errors.ts:102-120 | Member access by name. It returns exactly the member whose value is that name, and nothing when no member has that value. So every standard code's value equals the name it is declared under. |
| `Errors.CodeValue` | packages/core/src/errors.ts:105-120 | The string value of each enum member: a non-empty run of upper-case letters and underscores. `CodeNamed` shows it is the member's own name, and `CodeValuesDistinct` and `SevenCodeValues` show the values are distinct. |
| `Errors.CodeValuesDistinct` | packages/core/src/errors.ts:105-120 | No two standard codes share a value. |
| `Errors.SevenCodeValues` | packages/core/src/errors.ts:105-120 | The registry holds exactly seven distinct values. |

## Left out

- The `ts-custom-error` base class (packages/core/src/errors.ts:1). It supplies `name`, the stack trace and the prototype fix-up. Its source is not part of this model.
- The error fields are public and writable in TypeScript, but nothing reassigns them after construction. The model treats errors as immutable values.
- `status` is a TypeScript `number`. The model uses mathematical integers, so fractional values and `NaN` are not modelled.
- The status of a `RetryableError` is a precondition of `NewRetryableError`. The source neither validates nor clamps it at run time, so the model does neither.
- `NewInvalidAuthenticationError` takes its code from the `ErrorCodes` enum, the type TypeScript gives the parameter from its default. A plain JavaScript caller could pass any other string, and the model does not capture that.
- `DefaultRetry`: the doc comment speaks only of 4xx and 5xx statuses. For any other status, the model says "not retried". An `IntegrationError` without a status is not retried either.
- The retry and backoff engine that acts on these errors is not part of this model. Only its classification rule is modelled.
- The Yahoo Audiences test (packages/destination-actions/src/destinations/yahoo-audiences/__tests__/index.test.ts) exercises a destination module that is not part of this model, through HTTP mocking, environment variables and promise rejection. What it observes, an `IntegrationError`-kind rejection when a setting is blank, is the `IsIntegrationError` predicate: it holds for `IntegrationError`, `PayloadValidationError` and `APIError` values.
