/**
 * The account lifecycle over the row store: the users, data and transactions
 * tables as maps, and one method per database operation. Every operation
 * runs a short sequence of statements and returns at the first failure; a
 * `Fault` says which statement (if any) the store fails and how.
 */
module Db {
  import opened Wrappers
  import opened Text
  import opened Uuids
  import opened Errors
  import opened Models
  import opened Hashing
  import opened Tokens
  import Resp = Responses

  /** A store failure at one statement of an operation; statements are numbered from 0 in the order the operation runs them. */
  datatype Fault = NoFault | FailAt(step: nat, failure: DbFailure)

  function Injected(f: Fault, step: nat): (o: Option<DbFailure>)
  {
    if f.FailAt? && f.step == step then Some(f.failure) else None
  }

  /** What `query_one` reports when it finds no row (or more than one): a failure without SQLSTATE. */
  const NoRow: DbFailure := DbFailure(None)

  /** What an insertion whose key is already present reports. */
  const Duplicate: DbFailure := DbFailure(Some(UniqueViolation))

  /** How an insertion ends: an injected failure, else a key conflict, else success. */
  function InsertFailure(injected: Option<DbFailure>, conflict: bool): (r: Option<DbFailure>)
    ensures r.None? <==> injected.None? && !conflict
    ensures injected.None? && conflict ==> r == Some(Duplicate) && FromDbError(r.value) == UsernameTaken
  {
    if injected.Some? then injected else if conflict then Some(Duplicate) else None
  }

  /** A row of the transactions table. */
  datatype Transaction = Transaction(txId: string, id: Uuid, firstName: string, lastName: string, address: string, txTimestamp: int)

  /** The placeholder transaction id: "tx_", a random number, then the first and the last six characters of the printed id. */
  function TxId(n: nat, id: Uuid): (t: string)
    ensures |t| == 15 + |NatToString(n)| && t[..3] == "tx_"
    ensures forall j :: 3 <= j < |t| ==> IsDigit(t[j]) || 'a' <= t[j] <= 'f'
  {
    HyphenatedEndsAreHex(id);
    "tx_" + NatToString(n) + Hyphenated(id)[..6] + Hyphenated(id)[36 - 6..]
  }

  /** The first and the last six characters of a printed id are lower-case hexadecimal digits. */
  lemma HyphenatedEndsAreHex(id: Uuid)
    ensures forall p :: 0 <= p < 6 || 30 <= p < 36 ==> IsDigit(Hyphenated(id)[p]) || 'a' <= Hyphenated(id)[p] <= 'f'
  {
    forall p | 0 <= p < 6 || 30 <= p < 36
      ensures IsDigit(Hyphenated(id)[p]) || 'a' <= Hyphenated(id)[p] <= 'f'
    {
      HyphenatedIsLowerHex(id, p);
    }
  }

  /** For a number from the generator's range the id is 20 characters: "tx_", five digits denoting it, and twelve hexadecimal digits of the id. */
  lemma TxIdFormat(n: nat, id: Uuid)
    requires 10000 <= n < 99999
    ensures var t := TxId(n, id);
      |t| == 20 && t[..3] == "tx_" && AllDigits(t[3..8]) && DecimalValue(t[3..8]) == n
      && t[8..14] == Hyphenated(id)[..6] && t[14..] == Hyphenated(id)[30..]
      && forall j :: 8 <= j < 20 ==> IsDigit(t[j]) || 'a' <= t[j] <= 'f'
  {
    assert Pow10(4) == 10000 by {
      assert Pow10(2) == 100;
    }
    assert Pow10(5) == 100000;
    NatToStringLength(n, 5);
    DecimalOfNatToString(n);
    var t := TxId(n, id);
    assert t[3..8] == NatToString(n);
  }

  predicate NameMatch(u: User, name: string)
  {
    Lower(u.username) == Lower(name)
  }

  /** The rows `WHERE LOWER(username) = LOWER(name)` selects. */
  function NameMatches(users: map<Uuid, User>, name: string): (m: set<Uuid>)
    ensures m <= users.Keys
  {
    set k | k in users && NameMatch(users[k], name)
  }

  /** No two rows have usernames that differ only in case. */
  ghost predicate UniqueNames(users: map<Uuid, User>)
  {
    forall j, k :: j in users && k in users && NameMatch(users[j], users[k].username) ==> j == k
  }

  lemma SingletonMembers(m: set<Uuid>)
    requires |m| == 1
    ensures forall a, b :: a in m && b in m ==> a == b
  {
    forall a, b | a in m && b in m
      ensures a == b
    {
      assert |m - {a}| == 0;
      assert b in m - {a} || b == a;
    }
  }

  /** The row `query_one` returns for an identifier: the one row that matches, if exactly one does. */
  function FindUser(users: map<Uuid, User>, ident: Identifier): (r: Option<Uuid>)
    ensures r.Some? ==> r.value in users
    ensures ident.ByUuid? ==> r == if ident.uuid in users then Some(ident.uuid) else None
    ensures ident.ByUsername? ==> (r.Some? <==> |NameMatches(users, ident.name)| == 1)
    ensures ident.ByUsername? && r.Some? ==> NameMatches(users, ident.name) == {r.value}
    ensures ident.ByUsername? && UniqueNames(users) ==> (r.Some? <==> NameMatches(users, ident.name) != {})
  {
    match ident
    case ByUuid(id) => if id in users then Some(id) else None
    case ByUsername(name) =>
      var m := NameMatches(users, name);
      MatchesUnderUniqueNames(users, name);
      if |m| == 1 then
        SingletonMembers(m);
        var k :| k in m;
        assert m == {k};
        Some(k)
      else None
  }

  /** With unique names, a username selects at most one row. */
  lemma MatchesUnderUniqueNames(users: map<Uuid, User>, name: string)
    ensures UniqueNames(users) && NameMatches(users, name) != {} ==> |NameMatches(users, name)| == 1
    ensures forall k :: k in users && NameMatch(users[k], name) ==> k in NameMatches(users, name)
  {
    var m := NameMatches(users, name);
    if UniqueNames(users) && m != {} {
      var a :| a in m;
      forall b | b in m
        ensures b == a
      {
        assert NameMatch(users[b], users[a].username);
      }
      assert m == {a};
    }
  }

  /** `query_user`: the matching row, or the failure the store reports. */
  function QueryUser(users: map<Uuid, User>, ident: Identifier, injected: Option<DbFailure>): (r: Result<User, DbFailure>)
    ensures injected.Some? ==> r == Err(injected.value)
    ensures injected.None? ==> (r.Ok? <==> FindUser(users, ident).Some?)
    ensures r.Ok? ==> r.value == users[FindUser(users, ident).value]
    ensures injected.None? && r.Err? ==> r.error == NoRow && FromDbError(r.error) == UserNotFound
  {
    if injected.Some? then Err(injected.value)
    else match FindUser(users, ident)
      case Some(k) => Ok(users[k])
      case None => Err(NoRow)
  }

  /** The row `register` inserts: the given identity and role, the credentials made from the password, not banned. */
  function NewUser(argon: Argon, id: Uuid, creds: Creds, accType: string, salt: string, now: int): (u: User)
    ensures u.id == id && u.username == creds.username && u.accType == accType && u.creationDate == now
    ensures !u.banned && u.banDate.None?
    ensures u.password.Some? && u.salt == Some(salt)
    ensures MatchHash(argon, creds.password, u.password.value, u.salt.value)
  {
    var (hash, s) := CreateHash(argon, creds.password, salt);
    User(id, creds.username, accType, Some(hash), Some(s), now, false, None)
  }

  /** A row with new credentials; every other field as before. */
  function WithCredentials(u: User, hashAndSalt: (string, string)): (r: User)
    ensures r.password == Some(hashAndSalt.0) && r.salt == Some(hashAndSalt.1)
    ensures r.(password := u.password, salt := u.salt) == u
  {
    u.(password := Some(hashAndSalt.0), salt := Some(hashAndSalt.1))
  }

  /** A banned row: `banned` set and `ban_date` the time of the ban; every other field as before. */
  function BanRow(u: User, now: int): (r: User)
    ensures r.banned && r.banDate == Some(now)
    ensures r.(banned := u.banned, banDate := u.banDate) == u
  {
    u.(banned := true, banDate := Some(now))
  }

  /** An unbanned row: `banned` cleared and no `ban_date`; every other field as before. */
  function UnbanRow(u: User): (r: User)
    ensures !r.banned && r.banDate.None?
    ensures r.(banned := u.banned, banDate := u.banDate) == u
  {
    u.(banned := false, banDate := None)
  }

  /** Banning a row that is not banned, then unbanning it, gives the row back. */
  lemma UnbanUndoesBan(u: User, now: int)
    requires !u.banned && u.banDate.None?
    ensures UnbanRow(BanRow(u, now)) == u
  {
  }

  /** The upgraded row: role "u"; every other field as before. */
  function UpgradeRow(u: User): (r: User)
    ensures r.accType == "u" && r.(accType := u.accType) == u
  {
    u.(accType := "u")
  }

  /** Number of rows on a page of the user listing. */
  const PageSize: nat := 20

  /** The number of pages: the row count divided by the page size, rounded up. */
  function Pages(count: nat): (p: nat)
    ensures p * PageSize >= count
    ensures p > 0 ==> (p - 1) * PageSize < count
    ensures p == 0 <==> count == 0
  {
    (count + PageSize - 1) / PageSize
  }

  /** Row j of the scan is on page j / 20 + 1, and that page exists. */
  lemma {:induction false} RowOnItsPage(count: nat, j: nat)
    requires j < count
    ensures 1 <= j / PageSize + 1 <= Pages(count)
    ensures (j / PageSize) * PageSize <= j < (j / PageSize + 1) * PageSize
  {
    var p := Pages(count);
    var q := j / PageSize;
    assert q * PageSize <= j;
    assert (q + 1) * PageSize <= count + PageSize - 1;
  }

  /** Every row of the scan is listed on its page, at its place within the page. */
  lemma PageListsRow(users: map<Uuid, User>, order: seq<Uuid>, j: nat)
    requires forall i :: 0 <= i < |order| ==> order[i] in users
    requires j < |order|
    ensures 1 <= j / PageSize + 1 <= Pages(|order|)
    ensures j % PageSize < |PageRows(users, order, j / PageSize + 1)|
    ensures PageRows(users, order, j / PageSize + 1)[j % PageSize] == users[order[j]].Displayable()
  {
    RowOnItsPage(|order|, j);
  }

  /** The order in which the store scans the users table: every row exactly once. */
  ghost predicate IsScanOrder(order: seq<Uuid>, users: map<Uuid, User>)
  {
    |order| == |users|
    && (forall i :: 0 <= i < |order| ==> order[i] in users)
    && (forall i, j :: 0 <= i < j < |order| ==> order[i] != order[j])
  }

  /**
   * `LIMIT 20 OFFSET (page - 1) * 20` over the scan, each row with its
   * credentials withheld.
   */
  function PageRows(users: map<Uuid, User>, order: seq<Uuid>, page: int): (rows: seq<User>)
    requires page >= 1
    requires forall i :: 0 <= i < |order| ==> order[i] in users
    ensures var offset := (page - 1) * PageSize;
      |rows| == if offset >= |order| then 0 else if |order| - offset < PageSize then |order| - offset else PageSize
    ensures |rows| <= PageSize
    ensures forall i :: 0 <= i < |rows| ==>
      (page - 1) * PageSize + i < |order| && rows[i] == users[order[(page - 1) * PageSize + i]].Displayable()
    ensures forall u :: u in rows ==> u.password.None? && u.salt.None?
    ensures page <= Pages(|order|) ==> |rows| >= 1
  {
    var offset := (page - 1) * PageSize;
    var n := if offset >= |order| then 0 else if |order| - offset < PageSize then |order| - offset else PageSize;
    seq(n, i requires 0 <= i < n => users[order[offset + i]].Displayable())
  }

  /** How an upgrade transaction ends after its rows were read: the error of the first failing statement, or none. */
  function UpgradeFailure(fault: Fault, txConflict: bool, dataConflict: bool): (e: Option<Error>)
    ensures e.None? <==>
      (forall s :: 1 <= s <= 5 ==> Injected(fault, s).None?) && !txConflict && !dataConflict
  {
    if Injected(fault, 1).Some? then Some(FromTransactionError(Injected(fault, 1).value))
    else if InsertFailure(Injected(fault, 2), txConflict).Some? then Some(FromDbError(InsertFailure(Injected(fault, 2), txConflict).value))
    else if Injected(fault, 3).Some? then Some(FromDbError(Injected(fault, 3).value))
    else if InsertFailure(Injected(fault, 4), dataConflict).Some? then Some(FromDbError(InsertFailure(Injected(fault, 4), dataConflict).value))
    else if Injected(fault, 5).Some? then Some(FromTransactionError(Injected(fault, 5).value))
    else None
  }

  type Outcome = Result<Resp.Response, Error>

  class Store {
    /** The token configuration and the password hash function, fixed for the process. */
    const cfg: Config
    const argon: Argon

    var users: map<Uuid, User>
    var data: map<Uuid, Data>
    var transactions: map<string, Transaction>

    /**
     * Consistency of the tables: each row is stored under its own id, stored
     * credentials are never NULL, `ban_date` is set exactly when the row is
     * banned, and usernames are unique up to case.
     */
    ghost predicate Valid()
      reads this
    {
      (forall k :: k in users ==>
         users[k].id == k && users[k].password.Some? && users[k].salt.Some?
         && (users[k].banned <==> users[k].banDate.Some?))
      && UniqueNames(users)
      && (forall t :: t in transactions ==> transactions[t].txId == t)
    }

    constructor (cfg: Config, argon: Argon)
      ensures this.cfg == cfg && this.argon == argon
      ensures users == map[] && data == map[] && transactions == map[]
      ensures Valid()
    {
      this.cfg := cfg;
      this.argon := argon;
      users, data, transactions := map[], map[], map[];
    }

    /**
     * `auth`: look the username up case-insensitively; a banned account is
     * refused as `Banned` before its password is looked at; a wrong password
     * and an unknown username both give `UserNotFound`. On success the token
     * carries the stored username, role and id.
     */
    method Auth(creds: Creds, clock: TokenClock, fault: Fault) returns (r: Outcome)
      requires Valid()
      ensures Injected(fault, 0).Some? ==> r == Err(FromDbError(Injected(fault, 0).value))
      ensures Injected(fault, 0).None? && NameMatches(users, creds.username) == {} ==> r == Err(UserNotFound)
      ensures forall k :: k in users && NameMatch(users[k], creds.username) && Injected(fault, 0).None? ==>
        var u := users[k];
        r == if u.banned then Err(Banned)
             else if !MatchHash(argon, creds.password, u.password.value, u.salt.value) then Err(UserNotFound)
             else Ok(Resp.Auth(CreateJwt(cfg, u.username, u.accType, k, clock)))
      ensures r.Ok? ==> exists k :: k in users && NameMatch(users[k], creds.username) && !users[k].banned
    {
      var q := QueryUser(users, ByUsername(creds.username), Injected(fault, 0));
      if q.Err? {
        MatchesUnderUniqueNames(users, creds.username);
        return Err(FromDbError(q.error));
      }
      var user := q.value;
      if !user.banned {
        if MatchHash(argon, creds.password, user.password.value, user.salt.value) {
          r := Ok(Resp.Auth(CreateJwt(cfg, user.username, user.accType, user.id, clock)));
        } else {
          r := Err(UserNotFound);
        }
      } else {
        r := Err(Banned);
      }
    }

    /**
     * `register`: refuse a username taken up to case; otherwise insert one
     * row with a fresh id and the given role. An admin account also gets an
     * empty data row and no token; any other account gets a token for itself.
     * The statements are not one transaction: a failed data insertion leaves
     * the user row in place.
     */
    method Register(creds: Creds, accType: string, newId: Uuid, salt: string, now: int, clock: TokenClock, fault: Fault)
      returns (r: Outcome)
      requires Valid()
      modifies this
      ensures Valid()
      ensures transactions == old(transactions)
      ensures Injected(fault, 0).Some? ==>
        unchanged(this) && r == Err(FromDbError(Injected(fault, 0).value))
      ensures Injected(fault, 0).None? && NameMatches(old(users), creds.username) != {} ==>
        unchanged(this) && r == Err(UsernameTaken)
      ensures Injected(fault, 0).None? && NameMatches(old(users), creds.username) == {} ==>
        match InsertFailure(Injected(fault, 1), newId in old(users))
        case Some(f) => unchanged(this) && r == Err(FromDbError(f))
        case None =>
          users == old(users)[newId := NewUser(argon, newId, creds, accType, salt, now)]
          && if accType == "a" then
               match InsertFailure(Injected(fault, 2), newId in old(data))
               case Some(f) => data == old(data) && r == Err(FromDbError(f))
               case None => data == old(data)[newId := EmptyData] && r == Ok(Resp.RegisterAdmin)
             else
               data == old(data) && r == Ok(Resp.Register(CreateJwt(cfg, creds.username, accType, newId, clock)))
    {
      if Injected(fault, 0).Some? {
        return Err(FromDbError(Injected(fault, 0).value));
      }
      var taken := NameMatches(users, creds.username) != {};
      if taken {
        return Err(UsernameTaken);
      }
      var f := InsertFailure(Injected(fault, 1), newId in users);
      if f.Some? {
        return Err(FromDbError(f.value));
      }
      var row := NewUser(argon, newId, creds, accType, salt, now);
      MatchesUnderUniqueNames(users, creds.username);
      NewRowKeepsNamesUnique(users, newId, row);
      users := users[newId := row];
      if accType == "a" {
        f := InsertFailure(Injected(fault, 2), newId in data);
        if f.Some? {
          return Err(FromDbError(f.value));
        }
        data := data[newId := EmptyData];
        r := Ok(Resp.RegisterAdmin);
      } else {
        r := Ok(Resp.Register(CreateJwt(cfg, creds.username, accType, newId, clock)));
      }
    }

    static lemma NewRowKeepsNamesUnique(users: map<Uuid, User>, id: Uuid, row: User)
      requires UniqueNames(users)
      requires forall k :: k in users ==> !NameMatch(users[k], row.username)
      ensures UniqueNames(users[id := row])
    {
      var us := users[id := row];
      forall j, k | j in us && k in us && NameMatch(us[j], us[k].username)
        ensures j == k
      {
        if j != id && k != id {
          assert NameMatch(users[j], users[k].username);
        }
      }
    }

    /**
     * `update_password`: the current password must verify against the stored
     * credentials (else `UserNotFound` and nothing is written); then the rows
     * `WHERE LOWER(username) = LOWER(username)` get the new hash and salt,
     * which verify against the new password.
     */
    method UpdatePassword(passwords: Password, username: string, newSalt: string, fault: Fault) returns (r: Outcome)
      requires Valid()
      modifies this
      ensures Valid()
      ensures data == old(data) && transactions == old(transactions)
      ensures Injected(fault, 0).Some? ==> unchanged(this) && r == Err(FromDbError(Injected(fault, 0).value))
      ensures Injected(fault, 0).None? && NameMatches(old(users), username) == {} ==> unchanged(this) && r == Err(UserNotFound)
      ensures forall k :: k in old(users) && NameMatch(old(users)[k], username) && Injected(fault, 0).None? ==>
        var u := old(users)[k];
        if !MatchHash(argon, passwords.password, u.password.value, u.salt.value) then
          unchanged(this) && r == Err(UserNotFound)
        else if Injected(fault, 1).Some? then
          unchanged(this) && r == Err(FromDbError(Injected(fault, 1).value))
        else
          users == old(users)[k := WithCredentials(u, CreateHash(argon, passwords.newPassword, newSalt))]
          && r == Ok(Resp.NewPassword)
          && MatchHash(argon, passwords.newPassword, users[k].password.value, users[k].salt.value)
    {
      var q := QueryUser(users, ByUsername(username), Injected(fault, 0));
      if q.Err? {
        MatchesUnderUniqueNames(users, username);
        return Err(FromDbError(q.error));
      }
      var user := q.value;
      ghost var k := FindUser(users, ByUsername(username)).value;
      if !MatchHash(argon, passwords.password, user.password.value, user.salt.value) {
        return Err(UserNotFound);
      }
      var hashAndSalt := CreateHash(argon, passwords.newPassword, newSalt);
      if Injected(fault, 1).Some? {
        return Err(FromDbError(Injected(fault, 1).value));
      }
      var updated := map j | j in users :: if NameMatch(users[j], username) then WithCredentials(users[j], hashAndSalt) else users[j];
      assert updated == users[k := WithCredentials(user, hashAndSalt)];
      users := updated;
      r := Ok(Resp.NewPassword);
    }

    /**
     * `upgrade`, for the account named in the token and the id it carries:
     * the stored role (not the token's) must be "s", else `Upgraded` and no
     * change. Then, in one transaction, record the payment, set the role of
     * the row with that id to "u" and insert an empty data row; if any
     * statement or the commit fails, none of the three persists. The new
     * token carries role "u".
     */
    method Upgrade(payment: Payment, username: string, id: Uuid, txNumber: nat, now: int, clock: TokenClock, fault: Fault)
      returns (r: Outcome)
      requires Valid()
      requires 10000 <= txNumber < 99999
      modifies this
      ensures Valid()
      ensures Injected(fault, 0).Some? ==> unchanged(this) && r == Err(FromDbError(Injected(fault, 0).value))
      ensures Injected(fault, 0).None? && NameMatches(old(users), username) == {} ==> unchanged(this) && r == Err(UserNotFound)
      ensures forall k :: k in old(users) && NameMatch(old(users)[k], username) && Injected(fault, 0).None? ==>
        var u := old(users)[k];
        var txId := TxId(txNumber, id);
        if u.accType != "s" then
          unchanged(this) && r == Err(Upgraded)
        else match UpgradeFailure(fault, txId in old(transactions), id in old(data))
          case Some(e) => unchanged(this) && r == Err(e)
          case None =>
            transactions == old(transactions)[txId := Transaction(txId, id, payment.firstName, payment.lastName, payment.address, now)]
            && users == (if id in old(users) then old(users)[id := UpgradeRow(old(users)[id])] else old(users))
            && data == old(data)[id := EmptyData]
            && r == Ok(Resp.Upgrade(CreateJwt(cfg, u.username, "u", id, clock)))
    {
      var txId := TxId(txNumber, id);
      var q := QueryUser(users, ByUsername(username), Injected(fault, 0));
      if q.Err? {
        MatchesUnderUniqueNames(users, username);
        return Err(FromDbError(q.error));
      }
      var user := q.value;
      if user.accType != "s" {
        return Err(Upgraded);
      }
      // The transaction works on its own copy of the tables until it commits.
      if Injected(fault, 1).Some? {
        return Err(FromTransactionError(Injected(fault, 1).value));
      }
      var f := InsertFailure(Injected(fault, 2), txId in transactions);
      if f.Some? {
        return Err(FromDbError(f.value));
      }
      var txs := transactions[txId := Transaction(txId, id, payment.firstName, payment.lastName, payment.address, now)];
      if Injected(fault, 3).Some? {
        return Err(FromDbError(Injected(fault, 3).value));
      }
      var us := if id in users then users[id := UpgradeRow(users[id])] else users;
      f := InsertFailure(Injected(fault, 4), id in data);
      if f.Some? {
        return Err(FromDbError(f.value));
      }
      var ds := data[id := EmptyData];
      if Injected(fault, 5).Some? {
        return Err(FromTransactionError(Injected(fault, 5).value));
      }
      assert UniqueNames(us) by {
        forall j, k | j in us && k in us && NameMatch(us[j], us[k].username)
          ensures j == k
        {
          assert NameMatch(users[j], users[k].username);
        }
      }
      users, data, transactions := us, ds, txs;
      r := Ok(Resp.Upgrade(CreateJwt(cfg, user.username, "u", id, clock)));
    }

    /**
     * `save`: write one slot and its timestamp in the data row with this id;
     * the other slots keep their contents. With no such row the update
     * touches nothing and still reports success.
     */
    method Save(request: SaveRequest, id: Uuid, slot: Slot, now: int, fault: Fault) returns (r: Outcome)
      requires Valid()
      modifies this
      ensures Valid()
      ensures users == old(users) && transactions == old(transactions)
      ensures Injected(fault, 0).Some? ==> unchanged(this) && r == Err(FromDbError(Injected(fault, 0).value))
      ensures Injected(fault, 0).None? ==>
        r == Ok(Resp.Save)
        && data == if id in old(data) then old(data)[id := WriteSlot(old(data)[id], slot, request.data, now)] else old(data)
    {
      if Injected(fault, 0).Some? {
        return Err(FromDbError(Injected(fault, 0).value));
      }
      if id in data {
        data := data[id := WriteSlot(data[id], slot, request.data, now)];
      }
      r := Ok(Resp.Save);
    }

    /** `load`: all three slots and timestamps of the data row with this id; no row gives `UserNotFound`. */
    method Load(id: Uuid, fault: Fault) returns (r: Outcome)
      ensures Injected(fault, 0).Some? ==> r == Err(FromDbError(Injected(fault, 0).value))
      ensures Injected(fault, 0).None? && id !in data ==> r == Err(UserNotFound)
      ensures Injected(fault, 0).None? && id in data ==>
        r.Ok? && r.value.Load? && forall s: Slot :: SlotOf(r.value.data, s) == SlotOf(data[id], s)
    {
      if Injected(fault, 0).Some? {
        return Err(FromDbError(Injected(fault, 0).value));
      }
      if id !in data {
        return Err(FromDbError(NoRow));
      }
      var row := data[id];
      r := Ok(Resp.Load(Data(row.saveOne, row.saveTwo, row.saveThree, row.timestampOne, row.timestampTwo, row.timestampThree)));
    }

    /**
     * `get_users`: a page exists when its number is at most the page count
     * (so with no users there is none); it holds at most 20 users of the
     * scan from offset (page - 1) * 20, all without credentials, and its
     * `count` is its length.
     */
    method GetUsers(pageNum: int, order: seq<Uuid>, fault: Fault) returns (r: Outcome)
      requires pageNum >= 1
      requires IsScanOrder(order, users)
      ensures Injected(fault, 0).Some? ==> r == Err(FromDbError(Injected(fault, 0).value))
      ensures Injected(fault, 0).None? && pageNum > Pages(|users|) ==> r == Err(Error.Page)
      ensures Injected(fault, 0).None? && pageNum <= Pages(|users|) ==>
        r.Ok? && r.value.Page? && r.value.page == pageNum && r.value.pages == Pages(|users|)
        && r.value.users == PageRows(users, order, pageNum)
        && 1 <= r.value.count == |r.value.users| <= PageSize
      ensures users == map[] ==> r.Err?
    {
      if Injected(fault, 0).Some? {
        return Err(FromDbError(Injected(fault, 0).value));
      }
      var count := |users|;
      var pages := Pages(count);
      if pageNum <= pages {
        var page := PageRows(users, order, pageNum);
        r := Ok(Resp.Page(pageNum, pages, |page|, page));
      } else {
        r := Err(Error.Page);
      }
    }

    /** `get_user`: the row the identifier selects, without its credentials. */
    method GetUser(ident: Identifier, fault: Fault) returns (r: Outcome)
      ensures Injected(fault, 0).Some? ==> r == Err(FromDbError(Injected(fault, 0).value))
      ensures Injected(fault, 0).None? && FindUser(users, ident).None? ==> r == Err(UserNotFound)
      ensures Injected(fault, 0).None? && FindUser(users, ident).Some? ==>
        r == Ok(Resp.OneUser(users[FindUser(users, ident).value].Displayable()))
      ensures r.Ok? ==> r.value.OneUser? && r.value.user.password.None? && r.value.user.salt.None?
    {
      var q := QueryUser(users, ident, Injected(fault, 0));
      if q.Err? {
        return Err(FromDbError(q.error));
      }
      r := Ok(Resp.OneUser(q.value.Displayable()));
    }

    /** `del_user`: delete the selected user row; the user's data row is left in place. */
    method DelUser(ident: Identifier, fault: Fault) returns (r: Outcome)
      requires Valid()
      modifies this
      ensures Valid()
      ensures data == old(data) && transactions == old(transactions)
      ensures Injected(fault, 0).Some? ==> unchanged(this) && r == Err(FromDbError(Injected(fault, 0).value))
      ensures Injected(fault, 0).None? && FindUser(old(users), ident).None? ==> unchanged(this) && r == Err(UserNotFound)
      ensures Injected(fault, 0).None? && FindUser(old(users), ident).Some? ==>
        var k := FindUser(old(users), ident).value;
        if Injected(fault, 1).Some? then unchanged(this) && r == Err(FromDbError(Injected(fault, 1).value))
        else users == old(users) - {k} && r == Ok(Resp.Delete(old(users)[k].username))
    {
      var q := QueryUser(users, ident, Injected(fault, 0));
      if q.Err? {
        return Err(FromDbError(q.error));
      }
      var user := q.value;
      if Injected(fault, 1).Some? {
        return Err(FromDbError(Injected(fault, 1).value));
      }
      users := users - {user.id};
      r := Ok(Resp.Delete(user.username));
    }

    /** `unban`: only a banned user can be unbanned (else `NotBanned`, no change); it loses its ban and ban date. */
    method Unban(ident: Identifier, fault: Fault) returns (r: Outcome)
      requires Valid()
      modifies this
      ensures Valid()
      ensures data == old(data) && transactions == old(transactions)
      ensures Injected(fault, 0).Some? ==> unchanged(this) && r == Err(FromDbError(Injected(fault, 0).value))
      ensures Injected(fault, 0).None? && FindUser(old(users), ident).None? ==> unchanged(this) && r == Err(UserNotFound)
      ensures Injected(fault, 0).None? && FindUser(old(users), ident).Some? ==>
        var k := FindUser(old(users), ident).value;
        var u := old(users)[k];
        if !u.banned then unchanged(this) && r == Err(NotBanned)
        else if Injected(fault, 1).Some? then unchanged(this) && r == Err(FromDbError(Injected(fault, 1).value))
        else users == old(users)[k := UnbanRow(u)] && r == Ok(Resp.Unban(u.username))
    {
      var q := QueryUser(users, ident, Injected(fault, 0));
      if q.Err? {
        return Err(FromDbError(q.error));
      }
      var user := q.value;
      if user.banned {
        if Injected(fault, 1).Some? {
          return Err(FromDbError(Injected(fault, 1).value));
        }
        RowChangeKeepsNamesUnique(users, user.id, UnbanRow(user));
        users := users[user.id := UnbanRow(user)];
        r := Ok(Resp.Unban(user.username));
      } else {
        r := Err(NotBanned);
      }
    }

    /** `ban`: only a user that is not banned can be banned (else `PriorBan`, no change); it is marked banned as of `now`. */
    method Ban(ident: Identifier, now: int, fault: Fault) returns (r: Outcome)
      requires Valid()
      modifies this
      ensures Valid()
      ensures data == old(data) && transactions == old(transactions)
      ensures Injected(fault, 0).Some? ==> unchanged(this) && r == Err(FromDbError(Injected(fault, 0).value))
      ensures Injected(fault, 0).None? && FindUser(old(users), ident).None? ==> unchanged(this) && r == Err(UserNotFound)
      ensures Injected(fault, 0).None? && FindUser(old(users), ident).Some? ==>
        var k := FindUser(old(users), ident).value;
        var u := old(users)[k];
        if u.banned then unchanged(this) && r == Err(PriorBan)
        else if Injected(fault, 1).Some? then unchanged(this) && r == Err(FromDbError(Injected(fault, 1).value))
        else users == old(users)[k := BanRow(u, now)] && r == Ok(Resp.Ban(u.username))
    {
      var q := QueryUser(users, ident, Injected(fault, 0));
      if q.Err? {
        return Err(FromDbError(q.error));
      }
      var user := q.value;
      if !user.banned {
        if Injected(fault, 1).Some? {
          return Err(FromDbError(Injected(fault, 1).value));
        }
        RowChangeKeepsNamesUnique(users, user.id, BanRow(user, now));
        users := users[user.id := BanRow(user, now)];
        r := Ok(Resp.Ban(user.username));
      } else {
        r := Err(PriorBan);
      }
    }

    static lemma RowChangeKeepsNamesUnique(users: map<Uuid, User>, id: Uuid, row: User)
      requires UniqueNames(users)
      requires id in users && row.username == users[id].username
      ensures UniqueNames(users[id := row])
    {
      var us := users[id := row];
      forall j, k | j in us && k in us && NameMatch(us[j], us[k].username)
        ensures j == k
      {
        assert NameMatch(users[j], users[k].username);
      }
    }
  }
}
