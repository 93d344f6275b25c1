/**
 * The request handlers as gates: each handler checks its token claims and
 * its input in a fixed order and either refuses the request with an error,
 * answers it itself, or hands one call to the store.
 */
module Routes {
  import opened Wrappers
  import opened Uuids
  import opened Errors
  import opened Models
  import opened Tokens
  import opened Validation
  import Resp = Responses

  /** The store operation a handler hands its request to, with the arguments it passes. */
  datatype DbCall =
    | AuthCall(creds: Creds)
    | RegisterCall(creds: Creds, accType: string)
    | UpdatePasswordCall(passwords: Password, username: string)
    | UpgradeCall(payment: Payment, username: string, id: Uuid)
    | SaveCall(request: SaveRequest, id: Uuid, slot: Slot)
    | LoadCall(id: Uuid)
    | GetUsersCall(page: int)
    | GetUserCall(ident: Identifier)
    | DelUserCall(ident: Identifier)
    | UnbanCall(ident: Identifier)
    | BanCall(ident: Identifier)

  /** What a handler decides before any store access. */
  datatype Gate = Reject(error: Error) | Forward(call: DbCall) | Reply(response: Resp.Response)

  /** `validate_username(..).and(validate_password(..))`: both must pass; either failure is `CredsFormat`. */
  function CheckCreds(creds: Creds): (r: Result<bool, Error>)
    ensures r.Ok? <==> ValidateUsername(creds.username).Ok? && ValidatePassword(creds.password).Ok?
    ensures r.Err? ==> r.error == CredsFormat
  {
    match ValidateUsername(creds.username)
    case Err(e) => Err(e)
    case Ok(_) => ValidatePassword(creds.password)
  }

  /** `auth`: valid credentials go to the store's `auth`. */
  function AuthRoute(creds: Creds): (g: Gate)
    ensures g.Forward? <==> CheckCreds(creds).Ok?
    ensures g.Forward? ==> g.call == AuthCall(creds)
    ensures !g.Forward? ==> g == Reject(CredsFormat)
  {
    if CheckCreds(creds).Ok? then Forward(AuthCall(creds)) else Reject(CredsFormat)
  }

  /** `register`: valid credentials are registered with role "s". */
  function RegisterRoute(creds: Creds): (g: Gate)
    ensures g.Forward? <==> CheckCreds(creds).Ok?
    ensures g.Forward? ==> g.call == RegisterCall(creds, "s")
    ensures !g.Forward? ==> g == Reject(CredsFormat)
  {
    if CheckCreds(creds).Ok? then Forward(RegisterCall(creds, "s")) else Reject(CredsFormat)
  }

  /** `refresh`: a token at most 30 seconds from expiry is replaced by a fresh one for the same user, role and id. */
  function RefreshRoute(cfg: Config, claims: Claims, now: int, clock: TokenClock): (g: Gate)
    ensures g.Reply? <==> claims.exp - now <= 30
    ensures !g.Reply? ==> g == Reject(TokenDuration)
    ensures g.Reply? ==>
      g.response.Refreshed?
      && var t := g.response.accessToken.claims;
      t.user == claims.user && t.role == claims.role && t.id == claims.id && t.iss == cfg.domain
  {
    if claims.exp - now <= 30 then Reply(Resp.Refreshed(CreateJwt(cfg, claims.user, claims.role, claims.id, clock)))
    else Reject(TokenDuration)
  }

  /** `update_password`: both the current and the new password must pass the password check. */
  function UpdatePasswordRoute(passwords: Password, claims: Claims): (g: Gate)
    ensures g.Forward? <==> ValidatePassword(passwords.password).Ok? && ValidatePassword(passwords.newPassword).Ok?
    ensures g.Forward? ==> g.call == UpdatePasswordCall(passwords, claims.user)
    ensures !g.Forward? ==> g == Reject(CredsFormat)
  {
    if ValidatePassword(passwords.password).Ok? && ValidatePassword(passwords.newPassword).Ok? then
      Forward(UpdatePasswordCall(passwords, claims.user))
    else Reject(CredsFormat)
  }

  /** `upgrade`: payment compliance is checked first, then the token's role must be "s". */
  function UpgradeRoute(payment: Payment, claims: Claims): (g: Gate)
    ensures !Compliant(payment) ==> g == Reject(PaymentDetails)
    ensures Compliant(payment) && claims.role != "s" ==> g == Reject(Upgraded)
    ensures g.Forward? <==> Compliant(payment) && claims.role == "s"
    ensures g.Forward? ==> g.call == UpgradeCall(payment, claims.user, claims.id)
    ensures !g.Reply?
  {
    if !Compliant(payment) then Reject(PaymentDetails)
    else if claims.role != "s" then Reject(Upgraded)
    else Forward(UpgradeCall(payment, claims.user, claims.id))
  }

  predicate MayUseSaves(claims: Claims) { claims.role == "u" || claims.role == "a" }

  /** The slot a save option names: 1, 2 and 3 name slots one, two and three; nothing else names a slot. */
  function SlotOfOpt(opt: U8): (s: Option<Slot>)
    ensures s.Some? <==> 1 <= opt <= 3
    ensures s == Some(One) <==> opt == 1
    ensures s == Some(Two) <==> opt == 2
    ensures s == Some(Three) <==> opt == 3
  {
    if opt == 1 then Some(One) else if opt == 2 then Some(Two) else if opt == 3 then Some(Three) else None
  }

  /** `save`: the role check comes before the option check. */
  function SaveRoute(request: SaveRequest, claims: Claims): (g: Gate)
    ensures !MayUseSaves(claims) ==> g == Reject(NotUpgraded)
    ensures MayUseSaves(claims) && !(1 <= request.opt <= 3) ==> g == Reject(InvalidOpt)
    ensures g.Forward? <==> MayUseSaves(claims) && 1 <= request.opt <= 3
    ensures g.Forward? ==> g.call == SaveCall(request, claims.id, SlotOfOpt(request.opt).value)
    ensures !g.Reply?
  {
    if !MayUseSaves(claims) then Reject(NotUpgraded)
    else match SlotOfOpt(request.opt)
      case None => Reject(InvalidOpt)
      case Some(slot) => Forward(SaveCall(request, claims.id, slot))
  }

  /** `load`: only for role "u" or "a", and always the token's own id. */
  function LoadRoute(claims: Claims): (g: Gate)
    ensures g.Forward? <==> MayUseSaves(claims)
    ensures g.Forward? ==> g.call == LoadCall(claims.id)
    ensures !g.Forward? ==> g == Reject(NotUpgraded)
  {
    if MayUseSaves(claims) then Forward(LoadCall(claims.id)) else Reject(NotUpgraded)
  }

  /** `create_admin`: only an admin may register an account, and it gets role "a". */
  function CreateAdminRoute(creds: Creds, claims: Claims): (g: Gate)
    ensures claims.role != "a" ==> g == Reject(NoPermission)
    ensures g.Forward? <==> claims.role == "a" && CheckCreds(creds).Ok?
    ensures g.Forward? ==> g.call == RegisterCall(creds, "a")
    ensures claims.role == "a" && !g.Forward? ==> g == Reject(CredsFormat)
  {
    if claims.role != "a" then Reject(NoPermission)
    else if CheckCreds(creds).Ok? then Forward(RegisterCall(creds, "a"))
    else Reject(CredsFormat)
  }

  /** `get_users`: admin only, then the page number must be positive. */
  function GetUsersRoute(page: int, claims: Claims): (g: Gate)
    ensures claims.role != "a" ==> g == Reject(NoPermission)
    ensures claims.role == "a" && page <= 0 ==> g == Reject(Parameter)
    ensures g.Forward? <==> claims.role == "a" && page > 0
    ensures g.Forward? ==> g.call == GetUsersCall(page)
    ensures !g.Reply?
  {
    if claims.role != "a" then Reject(NoPermission)
    else if page > 0 then Forward(GetUsersCall(page))
    else Reject(Parameter)
  }

  /** The shape shared by `get_user`, `delete`, `unban` and `ban`: admin only, then the identifier must parse. */
  function AdminIdentifierRoute(identifier: string, claims: Claims, call: Identifier -> DbCall): (g: Gate)
    ensures claims.role != "a" ==> g == Reject(NoPermission)
    ensures g.Forward? <==> claims.role == "a" && GetIdentifier(identifier).Ok?
    ensures g.Forward? ==> g.call == call(GetIdentifier(identifier).value)
    ensures claims.role == "a" && !g.Forward? ==> g == Reject(CredsFormat)
  {
    if claims.role != "a" then Reject(NoPermission)
    else match GetIdentifier(identifier)
      case Err(_) => Reject(CredsFormat)
      case Ok(ident) => Forward(call(ident))
  }

  /** The requests the service routes, by method and path. */
  datatype Request =
    | PostAuth(creds: Creds)
    | PostRegister(creds: Creds)
    | GetRefresh
    | PostUpdatePassword(passwords: Password)
    | PostUpgrade(payment: Payment)
    | PostSave(save: SaveRequest)
    | GetLoad
    | PostCreateAdmin(creds: Creds)
    | GetUsers(page: int)
    | GetUser(identifier: string)
    | DeleteUser(identifier: string)
    | PostUnban(identifier: string)
    | PostBan(identifier: string)

  /** Requests under `/admin`. */
  predicate AdminScope(r: Request)
  {
    r.PostCreateAdmin? || r.GetUsers? || r.GetUser? || r.DeleteUser? || r.PostUnban? || r.PostBan?
  }

  /** Requests under `/utils`. */
  predicate UtilsScope(r: Request)
  {
    r.GetRefresh? || r.PostUpdatePassword? || r.PostUpgrade? || r.PostSave? || r.GetLoad?
  }

  /** The handler a request is routed to, given the claims of its (already validated) token. */
  function Handle(cfg: Config, r: Request, claims: Claims, now: int, clock: TokenClock): (g: Gate)
  {
    match r
    case PostAuth(creds) => AuthRoute(creds)
    case PostRegister(creds) => RegisterRoute(creds)
    case GetRefresh => RefreshRoute(cfg, claims, now, clock)
    case PostUpdatePassword(passwords) => UpdatePasswordRoute(passwords, claims)
    case PostUpgrade(payment) => UpgradeRoute(payment, claims)
    case PostSave(save) => SaveRoute(save, claims)
    case GetLoad => LoadRoute(claims)
    case PostCreateAdmin(creds) => CreateAdminRoute(creds, claims)
    case GetUsers(page) => GetUsersRoute(page, claims)
    case GetUser(identifier) => AdminIdentifierRoute(identifier, claims, ident => GetUserCall(ident))
    case DeleteUser(identifier) => AdminIdentifierRoute(identifier, claims, ident => DelUserCall(ident))
    case PostUnban(identifier) => AdminIdentifierRoute(identifier, claims, ident => UnbanCall(ident))
    case PostBan(identifier) => AdminIdentifierRoute(identifier, claims, ident => BanCall(ident))
  }

  /**
   * The service in front of the handlers: requests in the `/admin` and
   * `/utils` scopes must carry a token that `validator` lets through, and
   * their handler works on its claims; the public routes ignore the token.
   */
  function Dispatch(cfg: Config, r: Request, token: Jwt, now: int, clock: TokenClock): (d: Result<Gate, AuthenticationError>)
    ensures (AdminScope(r) || UtilsScope(r)) ==> (d.Ok? <==> DecodeJwt(cfg, token, now).Ok?)
    ensures d.Err? ==> d.error == AuthenticationError("Invalid Token")
  {
    if AdminScope(r) || UtilsScope(r) then
      match Validator(cfg, r, token, now)
      case Err((e, _)) => Err(e)
      case Ok(_) => Ok(Handle(cfg, r, DecodeJwt(cfg, token, now).value, now, clock))
    else Ok(Handle(cfg, r, token.claims, now, clock))
  }

  /** Every admin request from a token whose role is not "a" is refused with `NoPermission`, before any input check or store access. */
  lemma AdminRequiresAdminRole(cfg: Config, r: Request, token: Jwt, now: int, clock: TokenClock)
    requires AdminScope(r)
    requires DecodeJwt(cfg, token, now).Ok? && token.claims.role != "a"
    ensures Dispatch(cfg, r, token, now, clock) == Ok(Reject(NoPermission))
  {
  }

  /** An account with role "a" can only come from `create_admin`, called with a valid admin token. */
  lemma AdminAccountsComeFromAdmins(cfg: Config, r: Request, token: Jwt, now: int, clock: TokenClock, creds: Creds, accType: string)
    requires Dispatch(cfg, r, token, now, clock) == Ok(Forward(RegisterCall(creds, accType)))
    ensures accType == "a" || accType == "s"
    ensures accType == "a" <==> r.PostCreateAdmin?
    ensures accType == "a" ==> DecodeJwt(cfg, token, now) == Ok(token.claims) && token.claims.role == "a"
    ensures CheckCreds(creds).Ok?
  {
  }

  /** What reaches the store has passed the handler's checks. */
  lemma ForwardedCallsAreChecked(cfg: Config, r: Request, token: Jwt, now: int, clock: TokenClock)
    requires Dispatch(cfg, r, token, now, clock).Ok? && Dispatch(cfg, r, token, now, clock).value.Forward?
    ensures var call := Dispatch(cfg, r, token, now, clock).value.call;
      (AdminScope(r) || UtilsScope(r) ==> DecodeJwt(cfg, token, now).Ok?)
      && (call.AuthCall? ==> CheckCreds(call.creds).Ok?)
      && (call.UpgradeCall? ==> Compliant(call.payment) && token.claims.role == "s")
      && (call.SaveCall? || call.LoadCall? ==> MayUseSaves(token.claims))
      && (call.GetUsersCall? ==> call.page > 0)
      && (call.UpdatePasswordCall? ==>
           ValidatePassword(call.passwords.newPassword).Ok? && call.username == token.claims.user)
      && (call.GetUserCall? || call.DelUserCall? || call.UnbanCall? || call.BanCall? ==> token.claims.role == "a")
  {
  }

  /** A store call that works on the caller's own data uses the id in the caller's token. */
  lemma OwnDataByTokenId(cfg: Config, r: Request, token: Jwt, now: int, clock: TokenClock)
    requires Dispatch(cfg, r, token, now, clock).Ok? && Dispatch(cfg, r, token, now, clock).value.Forward?
    ensures var call := Dispatch(cfg, r, token, now, clock).value.call;
      (call.SaveCall? ==> call.id == token.claims.id)
      && (call.LoadCall? ==> call.id == token.claims.id)
      && (call.UpgradeCall? ==> call.id == token.claims.id && call.username == token.claims.user)
  {
  }

  /** When the pool cannot hand out a connection, a request the handler would forward fails with `Pool`. */
  function WithClient(g: Gate, pool: Option<PoolFailure>): (h: Gate)
    ensures g.Forward? && pool.Some? ==> h == Reject(Pool)
    ensures !(g.Forward? && pool.Some?) ==> h == g
  {
    if g.Forward? && pool.Some? then Reject(FromPoolError(pool.value)) else g
  }
}
