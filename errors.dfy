/**
 * The domain errors of the service, their messages and HTTP status codes,
 * and the classification of store, pool and transaction failures.
 */
module Errors {
  import opened Wrappers

  datatype Error =
    | Pool
    | Page
    | Banned
    | Payload
    | Upgraded
    | PriorBan
    | NotBanned
    | Parameter
    | InvalidOpt
    | NotUpgraded
    | CredsFormat
    | UserNotFound
    | NoPermission
    | DBTransaction
    | UsernameTaken
    | TokenDuration
    | PaymentDetails
    | DbError(code: string)

  /** A failure reported by the row store, with its SQLSTATE code when it has one. */
  datatype DbFailure = DbFailure(code: Option<string>)

  /** A failure to obtain a pooled connection; its cause is not inspected. */
  datatype PoolFailure = PoolFailure(reason: string)

  /** SQLSTATE `unique_violation`. */
  const UniqueViolation: string := "23505"

  /** The message placed in the body of an error response. */
  function Info(e: Error): (s: string)
    ensures e.DbError? ==> s == "Database Error: " + e.code
  {
    match e
    case Pool => "Database Unreachable"
    case Page => "Nonexistent Page"
    case Banned => "Account Banned"
    case Payload => "Invalid Payload"
    case Upgraded => "Account Already Upgraded"
    case Parameter => "Invalid Parameter"
    case InvalidOpt => "Invalid Option"
    case PriorBan => "User Already Banned"
    case NotBanned => "User Is Not Banned"
    case NotUpgraded => "Account Is Not Upgraded"
    case CredsFormat => "Credential Format Requirements"
    case DBTransaction => "Interal Server Error"
    case UserNotFound => "Supplied Values Dont Match A User"
    case NoPermission => "Unauthorized"
    case UsernameTaken => "Username Taken"
    case TokenDuration => "Duration Not Met"
    case PaymentDetails => "Payment Details Formatting"
    case DbError(code) => "Database Error:" + " " + code
  }

  predicate IsInternal(e: Error) { e.Pool? || e.DBTransaction? || e.DbError? }
  predicate IsUnauthorized(e: Error) { e.Banned? || e.UserNotFound? }
  predicate IsForbidden(e: Error) { e.Upgraded? || e.NotUpgraded? || e.NoPermission? }

  /** The HTTP status of an error: 500 for internal failures, 401 and 403 for the access failures, 400 otherwise. */
  function StatusCode(e: Error): (code: int)
    ensures code == 500 <==> IsInternal(e)
    ensures code == 401 <==> IsUnauthorized(e)
    ensures code == 403 <==> IsForbidden(e)
    ensures code == 400 <==> !IsInternal(e) && !IsUnauthorized(e) && !IsForbidden(e)
  {
    match e
    case Pool => 500
    case Page => 400
    case Banned => 401
    case Payload => 400
    case Upgraded => 403
    case Parameter => 400
    case InvalidOpt => 400
    case PriorBan => 400
    case NotBanned => 400
    case NotUpgraded => 403
    case CredsFormat => 400
    case DBTransaction => 500
    case UserNotFound => 401
    case NoPermission => 403
    case UsernameTaken => 400
    case TokenDuration => 400
    case PaymentDetails => 400
    case DbError(_) => 500
  }

  datatype ErrorBody = ErrorBody(error: string)
  datatype ErrorResponse = ErrorResponse(status: int, body: ErrorBody)

  /** The response an error renders as: its status code and a JSON body whose `error` is its message. */
  function ToResponse(e: Error): (r: ErrorResponse)
    ensures r.status == StatusCode(e) && r.body.error == Info(e)
    ensures r.status in {400, 401, 403, 500}
  {
    ErrorResponse(StatusCode(e), ErrorBody(Info(e)))
  }

  /** `pool_error`: every pool failure is `Pool`. */
  function FromPoolError(f: PoolFailure): (e: Error)
    ensures e == Pool && StatusCode(e) == 500
  {
    Pool
  }

  /** `transaction_error`: every failure to open or commit a transaction is `DBTransaction`. */
  function FromTransactionError(f: DbFailure): (e: Error)
    ensures e == DBTransaction && StatusCode(e) == 500
  {
    DBTransaction
  }

  /**
   * `db_error`: a failure without SQLSTATE (such as a query that found no row)
   * is `UserNotFound`, a unique violation is `UsernameTaken`, and any other
   * code is passed on inside `DbError`.
   */
  function FromDbError(f: DbFailure): (e: Error)
    ensures f.code.None? ==> e == UserNotFound
    ensures f.code == Some(UniqueViolation) ==> e == UsernameTaken
    ensures f.code.Some? && f.code.value != UniqueViolation ==>
              e == DbError(f.code.value) && Info(e) == "Database Error: " + f.code.value
    ensures e in {UserNotFound, UsernameTaken} || (e.DbError? && StatusCode(e) == 500)
  {
    if f.code.None? then UserNotFound
    else if f.code.value == UniqueViolation then UsernameTaken
    else DbError(f.code.value)
  }

  /** Distinct store codes give distinct messages, so the code survives into the response. */
  lemma {:induction false} DbErrorInfoInjective(c1: string, c2: string)
    requires Info(DbError(c1)) == Info(DbError(c2))
    ensures c1 == c2
  {
    var p := "Database Error: ";
    assert c1 == (p + c1)[|p|..];
    assert c2 == (p + c2)[|p|..];
  }

  /** No fixed message has a colon at position 14, where every `DbError` message has one. */
  lemma FixedInfoHasNoColon(e: Error)
    requires !e.DbError?
    ensures |Info(e)| <= 14 || Info(e)[14] != ':'
  {
  }

  /** No fixed message equals a `DbError` message: the latter has a colon at position 14. */
  lemma FixedInfoIsNotDbError(e: Error, code: string)
    requires !e.DbError?
    ensures Info(e) != Info(DbError(code))
  {
    FixedInfoHasNoColon(e);
    assert Info(DbError(code))[14] == ':';
  }

  /** The body of an error response tells which error it is: distinct errors have distinct messages. */
  lemma InfoInjective(e1: Error, e2: Error)
    requires Info(e1) == Info(e2)
    ensures e1 == e2
  {
    if e1.DbError? && e2.DbError? {
      DbErrorInfoInjective(e1.code, e2.code);
    } else if e2.DbError? {
      FixedInfoIsNotDbError(e1, e2.code);
    } else if e1.DbError? {
      FixedInfoIsNotDbError(e2, e1.code);
    }
  }
}
