/** Business types, their direction and their legal holders (internal/coin/model.go, service.go). */
module CoinModel {
  import opened Basics

  // Go's int64.
  const MAX64 := 0x7FFF_FFFF_FFFF_FFFF
  const MIN64 := -0x8000_0000_0000_0000
  type Int64 = x: int | MIN64 <= x <= MAX64

  datatype Realm = Web | AdminRealm
  datatype Role = Student | Teacher | AdminRole | SuperAdmin | OtherRole(text: string)
  datatype Direction = Income | Expense
  datatype Origin = ByUser | BySystem | ByBackOffice

  datatype BizType = FirstLogin | PlatformRecharge | WordlistTipReceived | InviteFriend | Invited | DailyTask
    | CreateWord | CreateWordlist | PlatformGrant | CreateCustomEntry | GiveTip | ChangeDialect | PlatformDeduct
    | Withdrawal | OtherBiz(text: string)

  /** A wallet holder: the two realms are unrelated stores of accounts. */
  datatype Owner = Owner(realm: Realm, id: Id)

  datatype Meta = Meta(dir: Direction, origin: Origin, roles: set<(Realm, Role)>)

  const WEB_LEARNERS := {(Web, Student), (Web, Teacher)}
  const WEB_STUDENT := {(Web, Student)}
  const COIN_ADMIN := {(AdminRealm, AdminRole)}
  const ANY_HOLDER := {(Web, Student), (Web, Teacher), (AdminRealm, AdminRole)}

  function Registry(bt: BizType): Option<Meta> {
    match bt
    case FirstLogin => Some(Meta(Income, BySystem, WEB_LEARNERS))
    case PlatformRecharge => Some(Meta(Income, BySystem, WEB_LEARNERS))
    case WordlistTipReceived => Some(Meta(Income, BySystem, WEB_LEARNERS))
    case InviteFriend => Some(Meta(Income, BySystem, WEB_LEARNERS))
    case Invited => Some(Meta(Income, BySystem, WEB_LEARNERS))
    case DailyTask => Some(Meta(Income, BySystem, WEB_STUDENT))
    case CreateWord => Some(Meta(Income, BySystem, COIN_ADMIN))
    case CreateWordlist => Some(Meta(Income, BySystem, COIN_ADMIN))
    case PlatformGrant => Some(Meta(Income, ByBackOffice, ANY_HOLDER))
    case CreateCustomEntry => Some(Meta(Expense, ByUser, WEB_LEARNERS))
    case GiveTip => Some(Meta(Expense, ByUser, WEB_LEARNERS))
    case ChangeDialect => Some(Meta(Expense, ByUser, WEB_LEARNERS))
    case PlatformDeduct => Some(Meta(Expense, ByBackOffice, ANY_HOLDER))
    case Withdrawal => Some(Meta(Expense, ByUser, COIN_ADMIN))
    case OtherBiz(_) => None
  }

  /** One immutable ledger row; a positive amount credits, a negative one debits. */
  datatype Entry = Entry(id: Id, owner: Owner, amount: int, balanceAfter: int, biz: BizType, note: string,
    reversalOf: Option<Id>, idem: Option<string>, createdBy: Option<Id>)

  function DirectionOf(amount: int): Direction {
    if amount < 0 then Expense else Income
  }

  /** An amount a booking of type bt may carry. */
  predicate Booked(bt: BizType, amount: int) {
    && Registry(bt).Some? && DirectionOf(amount) == Registry(bt).value.dir
    && amount != 0 && -MAX64 <= amount <= MAX64
  }

  datatype PostError = UnknownBizType | NotAllowed | AmountSign | InsufficientBalance | NotFound | AlreadyReversed
    | CannotReverseReversal | Internal

  function Validate(owner: Owner, role: Role, bt: BizType, magnitude: Int64): Result<Meta, PostError> {
    match Registry(bt)
    case None => Err(UnknownBizType)
    case Some(meta) =>
      if (owner.realm, role) !in meta.roles then Err(NotAllowed)
      else if magnitude <= 0 then Err(AmountSign)
      else Ok(meta)
  }

  /** The sign comes from the direction, so a caller cannot get it wrong. */
  function Signed(owner: Owner, role: Role, bt: BizType, magnitude: Int64): Result<Int64, PostError> {
    match Validate(owner, role, bt, magnitude)
    case Err(e) => Err(e)
    case Ok(meta) => Ok(if meta.dir == Expense then -magnitude else magnitude)
  }

  /** Whatever passes validation is a booking its type may carry; negating it cannot overflow. */
  lemma SignedIsBooked(owner: Owner, role: Role, bt: BizType, magnitude: Int64)
    ensures var r := Signed(owner, role, bt, magnitude);
      && (r.Ok? ==> Booked(bt, r.value) && MIN64 <= -r.value <= MAX64 && (r.value == magnitude || r.value == -magnitude))
      && (r.Ok? <==> magnitude > 0 && Registry(bt).Some? && (owner.realm, role) in Registry(bt).value.roles)
  {
  }
}
