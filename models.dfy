/**
 * The records the service stores and exchanges: a user row, a save-data row,
 * the opaque game save, and the request payloads.
 */
module Models {
  import opened Wrappers
  import opened Uuids

  /** A game save: an opaque JSON document. */
  datatype SaveData = SaveData(json: string)

  /**
   * A row of the users table. `password` and `salt` are never NULL in the
   * store; they are optional only so that they can be withheld from output.
   * `accType` is "s" (standard), "u" (upgraded) or "a" (admin).
   */
  datatype User = User(
    id: Uuid,
    username: string,
    accType: string,
    password: Option<string>,
    salt: Option<string>,
    creationDate: int,
    banned: bool,
    banDate: Option<int>)
  {
    /** The user with both credential fields withheld and every other field kept. */
    function Displayable(): (u: User)
      ensures u.password.None? && u.salt.None?
      ensures u.id == id && u.username == username && u.accType == accType
      ensures u.creationDate == creationDate && u.banned == banned && u.banDate == banDate
    {
      this.(password := None, salt := None)
    }
  }

  /** Stripping credentials twice is stripping them once. */
  lemma DisplayableIdempotent(u: User)
    ensures u.Displayable().Displayable() == u.Displayable()
  {
  }

  /**
   * The keys of the JSON object a user serialises to: `password` and `salt`
   * are skipped when absent, every other field is always written.
   */
  function JsonKeys(u: User): (keys: set<string>)
    ensures "password" in keys <==> u.password.Some?
    ensures "salt" in keys <==> u.salt.Some?
    ensures {"id", "username", "acc_type", "creation_date", "banned", "ban_date"} <= keys
  {
    {"id", "username", "acc_type", "creation_date", "banned", "ban_date"}
    + (if u.password.Some? then {"password"} else {})
    + (if u.salt.Some? then {"salt"} else {})
  }

  /** A displayable user never exposes its credentials when serialised. */
  lemma DisplayableHidesCredentials(u: User)
    ensures "password" !in JsonKeys(u.Displayable()) && "salt" !in JsonKeys(u.Displayable())
    ensures JsonKeys(u.Displayable()) == {"id", "username", "acc_type", "creation_date", "banned", "ban_date"}
  {
  }

  /** One of the three save slots of a data row. */
  datatype Slot = One | Two | Three

  /** A row of the data table: three save slots, each with the time it was last written. */
  datatype Data = Data(
    saveOne: Option<SaveData>,
    saveTwo: Option<SaveData>,
    saveThree: Option<SaveData>,
    timestampOne: Option<int>,
    timestampTwo: Option<int>,
    timestampThree: Option<int>)

  /** The row inserted for a new data owner: every slot empty. */
  const EmptyData: Data := Data(None, None, None, None, None, None)

  /** The content and timestamp of one slot. */
  function SlotOf(d: Data, s: Slot): (Option<SaveData>, Option<int>)
  {
    match s
    case One => (d.saveOne, d.timestampOne)
    case Two => (d.saveTwo, d.timestampTwo)
    case Three => (d.saveThree, d.timestampThree)
  }

  /** Writing a slot sets that slot and its timestamp and leaves the other two slots as they were. */
  function WriteSlot(d: Data, s: Slot, v: SaveData, t: int): (r: Data)
    ensures SlotOf(r, s) == (Some(v), Some(t))
    ensures forall o: Slot :: o != s ==> SlotOf(r, o) == SlotOf(d, o)
  {
    match s
    case One => d.(saveOne := Some(v), timestampOne := Some(t))
    case Two => d.(saveTwo := Some(v), timestampTwo := Some(t))
    case Three => d.(saveThree := Some(v), timestampThree := Some(t))
  }

  /** How an admin names a user: by username or by id. */
  datatype Identifier = ByUsername(name: string) | ByUuid(uuid: Uuid)

  datatype Creds = Creds(username: string, password: string)

  /** A password change: the current password and the new one. */
  datatype Password = Password(password: string, newPassword: string)

  datatype Payment = Payment(
    firstName: string,
    lastName: string,
    address: string,
    cardNumber: string,
    cvc: string,
    expMonth: string,
    expYear: string)

  type U8 = x: int | 0 <= x < 256

  /** A save request: the slot number (1, 2 or 3 are meaningful) and the save. */
  datatype SaveRequest = SaveRequest(opt: U8, data: SaveData)
}
