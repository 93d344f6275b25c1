/**
 * The service end to end: a request passes the token middleware and its
 * handler's gate, and a forwarded call runs against the store. Random
 * values, the clock and store failures are inputs.
 */
module Service {
  import opened Wrappers
  import opened Text
  import opened Uuids
  import opened Errors
  import opened Models
  import opened Tokens
  import opened Validation
  import opened Db
  import opened Routes
  import Resp = Responses

  /** The values a request draws from outside: a fresh id and salt, the clock, and the store's scan order. */
  datatype Env = Env(newId: Uuid, salt: string, now: int, clock: TokenClock, txNumber: nat, order: seq<Uuid>)

  /** The answer to a request: the handler's outcome, or the middleware's refusal of the token. */
  datatype Reply = Answered(outcome: Outcome) | Unauthenticated(error: AuthenticationError)

  /** Calls that only read the store. */
  predicate ReadOnly(call: DbCall)
  {
    call.AuthCall? || call.LoadCall? || call.GetUsersCall? || call.GetUserCall?
  }

  /** Run one store call. */
  method Execute(store: Store, call: DbCall, env: Env, fault: Fault) returns (r: Outcome)
    requires store.Valid()
    requires call.GetUsersCall? ==> call.page >= 1 && IsScanOrder(env.order, store.users)
    requires call.UpgradeCall? ==> 10000 <= env.txNumber < 99999
    modifies store
    ensures store.Valid()
    ensures ReadOnly(call) ==> unchanged(store)
    ensures Injected(fault, 0).Some? ==> unchanged(store) && r.Err?
  {
    match call
    case AuthCall(creds) => r := store.Auth(creds, env.clock, fault);
    case RegisterCall(creds, accType) => r := store.Register(creds, accType, env.newId, env.salt, env.now, env.clock, fault);
    case UpdatePasswordCall(passwords, username) => r := store.UpdatePassword(passwords, username, env.salt, fault);
    case UpgradeCall(payment, username, id) => r := store.Upgrade(payment, username, id, env.txNumber, env.now, env.clock, fault);
    case SaveCall(request, id, slot) => r := store.Save(request, id, slot, env.now, fault);
    case LoadCall(id) => r := store.Load(id, fault);
    case GetUsersCall(page) => r := store.GetUsers(page, env.order, fault);
    case GetUserCall(ident) => r := store.GetUser(ident, fault);
    case DelUserCall(ident) => r := store.DelUser(ident, fault);
    case UnbanCall(ident) => r := store.Unban(ident, fault);
    case BanCall(ident) => r := store.Ban(ident, env.now, fault);
  }

  /**
   * Serve one request: an invalid token on a protected route is refused by
   * the middleware, a gate that refuses or answers touches no row, and a
   * pool failure stops a forwarded call before the store.
   */
  method Serve(store: Store, r: Request, token: Jwt, env: Env, pool: Option<PoolFailure>, fault: Fault) returns (reply: Reply)
    requires store.Valid()
    requires 10000 <= env.txNumber < 99999
    requires IsScanOrder(env.order, store.users)
    modifies store
    ensures store.Valid()
    ensures (AdminScope(r) || UtilsScope(r)) && DecodeJwt(store.cfg, token, env.now).Err? ==>
      reply == Unauthenticated(AuthenticationError("Invalid Token")) && unchanged(store)
    ensures AdminScope(r) && DecodeJwt(store.cfg, token, env.now).Ok? && token.claims.role != "a" ==>
      reply == Answered(Err(NoPermission)) && unchanged(store)
    ensures pool.Some? ==> unchanged(store) && (reply.Answered? ==> reply.outcome.Err? || r.GetRefresh?)
    ensures reply.Unauthenticated? ==> AdminScope(r) || UtilsScope(r)
  {
    var d := Dispatch(store.cfg, r, token, env.now, env.clock);
    if d.Err? {
      return Unauthenticated(d.error);
    }
    var g := WithClient(d.value, pool);
    match g
    case Reject(e) => reply := Answered(Err(e));
    case Reply(resp) => reply := Answered(Ok(resp));
    case Forward(call) =>
      var out := Execute(store, call, env, fault);
      reply := Answered(out);
  }

  /** An account just registered can authenticate with the same credentials, and its token carries role "s". */
  method RegisterThenAuth(store: Store, creds: Creds, env: Env) returns (registered: Outcome, authenticated: Outcome)
    requires store.Valid()
    modifies store
    ensures store.Valid()
    ensures registered.Ok? ==>
      authenticated == Ok(Resp.Auth(CreateJwt(store.cfg, creds.username, "s", env.newId, env.clock)))
  {
    registered := store.Register(creds, "s", env.newId, env.salt, env.now, env.clock, NoFault);
    authenticated := store.Auth(creds, env.clock, NoFault);
    if registered.Ok? {
      assert env.newId in store.users && NameMatch(store.users[env.newId], creds.username);
    }
  }

  /** A second registration of a username differing only in case is refused. */
  method RegisterTwice(store: Store, first: Creds, second: Creds, env: Env, otherId: Uuid) returns (r1: Outcome, r2: Outcome)
    requires store.Valid()
    requires Lower(first.username) == Lower(second.username)
    modifies store
    ensures store.Valid()
    ensures r1.Ok? ==> r2 == Err(UsernameTaken)
  {
    r1 := store.Register(first, "s", env.newId, env.salt, env.now, env.clock, NoFault);
    ghost var users := store.users;
    r2 := store.Register(second, "s", otherId, env.salt, env.now, env.clock, NoFault);
    if r1.Ok? {
      assert env.newId in NameMatches(users, second.username);
    }
  }

  /** A banned account cannot authenticate, whatever password it offers. */
  method BanThenAuth(store: Store, name: string, password: string, env: Env) returns (banned: Outcome, authenticated: Outcome)
    requires store.Valid()
    modifies store
    ensures store.Valid()
    ensures banned.Ok? ==> authenticated == Err(Banned)
  {
    banned := store.Ban(ByUsername(name), env.now, NoFault);
    ghost var before := old(store.users);
    authenticated := store.Auth(Creds(name, password), env.clock, NoFault);
    if banned.Ok? {
      var k := FindUser(before, ByUsername(name)).value;
      assert k in store.users && NameMatch(store.users[k], name);
    }
  }

  /** Banning an account and then unbanning it leaves the users table as it was. */
  method BanThenUnban(store: Store, ident: Identifier, env: Env) returns (banned: Outcome, unbanned: Outcome)
    requires store.Valid()
    modifies store
    ensures store.Valid()
    ensures banned.Ok? ==> unbanned.Ok? && store.users == old(store.users)
  {
    banned := store.Ban(ident, env.now, NoFault);
    if banned.Ok? {
      ghost var k := FindUser(old(store.users), ident).value;
      SameNamesSameSelection(old(store.users), store.users, ident);
      UnbanUndoesBan(old(store.users)[k], env.now);
    }
    unbanned := store.Unban(ident, NoFault);
  }

  /** Changing rows without changing any username selects the same row. */
  lemma SameNamesSameSelection(a: map<Uuid, User>, b: map<Uuid, User>, ident: Identifier)
    requires a.Keys == b.Keys
    requires forall k :: k in a ==> a[k].username == b[k].username
    ensures FindUser(a, ident) == FindUser(b, ident)
  {
    if ident.ByUsername? {
      assert NameMatches(a, ident.name) == NameMatches(b, ident.name);
    }
  }

  /** An account upgraded with its own token cannot be upgraded again, even by replaying the old token. */
  method UpgradeTwice(store: Store, payment: Payment, claims: Claims, env: Env) returns (first: Outcome, second: Outcome)
    requires store.Valid()
    requires 10000 <= env.txNumber < 99999
    requires claims.id in store.users && NameMatch(store.users[claims.id], claims.user)
    modifies store
    ensures store.Valid()
    ensures first.Ok? ==> second == Err(Upgraded)
  {
    first := store.Upgrade(payment, claims.user, claims.id, env.txNumber, env.now, env.clock, NoFault);
    second := store.Upgrade(payment, claims.user, claims.id, env.txNumber, env.now, env.clock, NoFault);
    if first.Ok? {
      assert claims.id in store.users && NameMatch(store.users[claims.id], claims.user);
    }
  }
}
