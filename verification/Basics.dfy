/** Vocabulary shared by every component: optional values, results and the failure codes
    of src/numi/common/models/failures.py that the modelled paths can raise. */
module Basics {

  datatype Option<+T> = None | Some(value: T)

  datatype Result<+T> = Ok(value: T) | Err(code: FailureCode)

  datatype FailureCode =
    | UNAUTHORIZED
    | AUTHENTICATION_FAILED
    | TOOL_NOT_FOUND
    | TOOL_NOT_AVAILABLE
    | INVALID_ARGUMENTS
    | INVALID_TARGET
    | POLICY_DENIED
    | CHANGE_TICKET_REQUIRED
    | RATE_LIMITED
    | APPROVAL_REQUIRED
    | APPROVAL_EXPIRED
    | APPROVAL_INVALID
    | APPROVAL_MISMATCH
    | APPROVAL_ALREADY_DECIDED
    | SEPARATION_OF_DUTIES_VIOLATION
    | EXECUTION_FAILED
    | EXECUTION_TIMEOUT
    | DATABASE_UNAVAILABLE
}
