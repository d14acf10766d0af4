/**
 One post or reversal at a time (internal/coin/repository.go, service.go): the methods of the
 ledger and the wallet they keep.
 */
module CoinStore {
  import opened Basics
  import opened CoinModel
  import opened CoinLedger

  ghost predicate KeyAt(l: seq<Entry>, idem: Option<string>, i: nat) {
    i < |l| && idem.Some? && l[i].idem == idem
  }

  ghost predicate OnBooks(l: seq<Entry>, idem: Option<string>) {
    exists i: nat :: KeyAt(l, idem, i)
  }

  ghost predicate NewId(l: seq<Entry>, id: Id) {
    forall i | 0 <= i < |l| :: l[i].id != id
  }

  /** The one row of the ledger that may be undone under id, or why there is none. */
  ghost predicate Undoable(l: seq<Entry>, id: Id, i: nat) {
    i < |l| && l[i].id == id && l[i].reversalOf.None? && forall k | 0 <= k < |l| :: l[k].reversalOf != Some(id)
  }

  lemma RoomNotShort(l: seq<Entry>, o: Owner, delta: int)
    ensures !(Room(l, o, delta) && Short(l, o, delta))
  {
  }

  lemma ChangedFits(w: Wallet, delta: int)
    ensures var r := Changed(w, delta);
      r.Ok? ==> r.value == Wallet(w.balance + delta, w.version + 1) && 0 <= r.value.balance <= MAX64
    ensures var r := Changed(w, delta); r.Err? ==> r.error == InsufficientBalance || r.error == Internal
  {
  }

  /** Row i may be undone, and its owner can spare what it credited. */
  ghost predicate Undoing(l: seq<Entry>, id: Id, i: nat) {
    Undoable(l, id, i) && Room(l, l[i].owner, -l[i].amount)
  }

  /** Row i may be undone, but its owner has spent what it credited. */
  ghost predicate Spent(l: seq<Entry>, id: Id, i: nat) {
    Undoable(l, id, i) && Short(l, l[i].owner, -l[i].amount)
  }

  ghost predicate IsBooking(l: seq<Entry>, id: Id, i: nat) {
    i < |l| && l[i].id == id && l[i].reversalOf.None?
  }

  ghost predicate IsReversal(l: seq<Entry>, id: Id, i: nat) {
    i < |l| && l[i].id == id && l[i].reversalOf.Some?
  }

  lemma OneRow(l: seq<Entry>, i: nat)
    requires LedgerOk(l) && i < |l|
    ensures forall k | 0 <= k < |l| && l[k].id == l[i].id :: k == i
  {
    hide RowOk;
    forall k: nat | k < |l| && k != i ensures l[k].id != l[i].id {
      NoClash(l, k, i);
    }
  }

  class Repository {
    var wallets: Wallets
    var ledger: seq<Entry>

    ghost predicate Valid()
      reads this
    {
      LedgerOk(ledger) && WalletsOk(wallets, ledger)
    }

    constructor ()
      ensures Valid() && ledger == [] && wallets == map[]
    {
      wallets, ledger := map[], [];
      EmptyOk();
    }

    method GetWallet(o: Owner) returns (w: Wallet)
      requires Valid()
      ensures w == WalletOf(wallets, o)
      ensures w.balance == Sum(ledger, o) == LiveSum(ledger, Reversed(ledger), o) && w.balance >= 0
    {
      SumIsLive(ledger, o);
      w := WalletOf(wallets, o);
    }

    method GetByIdem(idem: Option<string>) returns (r: Option<Entry>)
      ensures r.Some? ==> exists i: nat :: KeyAt(ledger, idem, i) && r.value == ledger[i]
      ensures r.None? ==> !OnBooks(ledger, idem)
    {
      if idem.Some? {
        for i := 0 to |ledger|
          invariant forall k | 0 <= k < i :: ledger[k].idem != idem
        {
          if ledger[i].idem == idem {
            assert KeyAt(ledger, idem, i);
            return Some(ledger[i]);
          }
        }
      }
      return None;
    }

    method GetRow(id: Id) returns (r: Option<Entry>)
      ensures r.Some? ==> r.value in ledger && r.value.id == id
      ensures r.None? ==> NewId(ledger, id)
    {
      for i := 0 to |ledger|
        invariant forall k | 0 <= k < i :: ledger[k].id != id
      {
        if ledger[i].id == id {
          return Some(ledger[i]);
        }
      }
      return None;
    }

    method IsReversed(id: Id) returns (found: bool)
      ensures found <==> exists i | 0 <= i < |ledger| :: ledger[i].reversalOf == Some(id)
    {
      for i := 0 to |ledger|
        invariant forall k | 0 <= k < i :: ledger[k].reversalOf != Some(id)
      {
        if ledger[i].reversalOf == Some(id) {
          return true;
        }
      }
      return false;
    }

    /** A key that is on the books returns its row; otherwise the wallet moves and one row is appended, or nothing. */
    method Post(o: Owner, amount: int, bt: BizType, note: string, author: Option<Id>, idem: Option<string>, newId: Id)
        returns (r: Result<Entry, PostError>)
      requires Valid() && Booked(bt, amount) && NewId(ledger, newId)
      modifies this
      ensures Valid()
      ensures OnBooks(old(ledger), idem) ==> r.Ok? && r.value in old(ledger) && r.value.idem == idem
      ensures OnBooks(old(ledger), idem) ==> ledger == old(ledger) && wallets == old(wallets)
      ensures !OnBooks(old(ledger), idem) ==>
        && (r.Ok? <==> Room(old(ledger), o, amount))
        && (r == Err(InsufficientBalance) <==> Short(old(ledger), o, amount))
        && (r.Ok? ==>
          && r.value == Entry(newId, o, amount, Sum(old(ledger), o) + amount, bt, note, None, idem, author)
          && ledger == old(ledger) + [r.value] && wallets == Booking(old(wallets), r.value))
      ensures r.Err? ==>
        ledger == old(ledger) && wallets == old(wallets) && (r.error == InsufficientBalance || r.error == Internal)
    {
      ChangedExactly(wallets, ledger, o, amount);
      RoomNotShort(ledger, o, amount);
      hide LedgerOk, WalletsOk, Booked, Sum, Count, Changed, Room, Short;
      var existing := GetByIdem(idem);
      if existing.Some? {
        return Ok(existing.value);
      }
      var change := Changed(WalletOf(wallets, o), amount);
      if change.Err? {
        return Err(change.error);
      }
      ChangedFits(WalletOf(wallets, o), amount);
      var e := Entry(newId, o, amount, change.value.balance, bt, note, None, idem, author);
      forall i | 0 <= i < |ledger| ensures !Clash(ledger[i], e) {
        assert !KeyAt(ledger, idem, i);
      }
      AppendKeeps(wallets, ledger, e);
      assert Booking(wallets, e) == wallets[o := change.value];
      wallets := wallets[o := change.value];
      ledger := ledger + [e];
      return Ok(e);
    }

    /** The original stays on the books; the opposite amount is booked once, or not at all. */
    method Reverse(target: Id, author: Id, note: string, newId: Id) returns (r: Result<Entry, PostError>)
      requires Valid() && NewId(ledger, newId)
      modifies this
      ensures Valid()
      ensures r.Ok? ==> ledger == old(ledger) + [r.value] && wallets == Booking(old(wallets), r.value)
      ensures r.Ok? ==> exists i: nat :: Undoable(old(ledger), target, i) && Undoes(ledger, |old(ledger)|, i)
      ensures r.Ok? ==> r.value.id == newId && r.value.note == note && r.value.createdBy == Some(author) && r.value.idem.None?
      ensures r.Err? ==> ledger == old(ledger) && wallets == old(wallets)
      ensures r == Err(NotFound) <==> NewId(old(ledger), target)
      ensures r == Err(CannotReverseReversal) <==> exists i: nat :: IsReversal(old(ledger), target, i)
      ensures r == Err(AlreadyReversed) <==>
        exists i: nat :: IsBooking(old(ledger), target, i) && !Undoable(old(ledger), target, i)
      ensures r.Ok? <==> exists i: nat :: Undoing(old(ledger), target, i)
      ensures r == Err(InsufficientBalance) <==> exists i: nat :: Spent(old(ledger), target, i)
      ensures r.Err? ==> !r.error.UnknownBizType? && !r.error.NotAllowed? && !r.error.AmountSign?
    {
      hide WalletsOk, Booked, RowOk, Sum, Count, Room, Short, Changed;
      var row := GetRow(target);
      if row.None? {
        return Err(NotFound);
      }
      var orig := row.value;
      ghost var i: nat :| i < |ledger| && ledger[i] == orig;
      OneRow(ledger, i);
      if orig.reversalOf.Some? {
        assert IsReversal(ledger, target, i);
        return Err(CannotReverseReversal);
      }
      var already := IsReversed(target);
      assert IsBooking(ledger, target, i);
      if already {
        return Err(AlreadyReversed);
      }
      assert Undoable(ledger, target, i);
      ChangedExactly(wallets, ledger, orig.owner, -orig.amount);
      RoomNotShort(ledger, orig.owner, -orig.amount);
      ChangedFits(WalletOf(wallets, orig.owner), -orig.amount);
      assert Undoing(ledger, target, i) <==> Room(ledger, orig.owner, -orig.amount);
      assert Spent(ledger, target, i) <==> Short(ledger, orig.owner, -orig.amount);
      var change := Changed(WalletOf(wallets, orig.owner), -orig.amount);
      if change.Err? {
        return Err(change.error);
      }
      var e := Entry(newId, orig.owner, -orig.amount, change.value.balance, orig.biz, note, Some(target), None, Some(author));
      assert Undoes(ledger + [e], |ledger|, i);
      AppendKeeps(wallets, ledger, e);
      wallets := wallets[orig.owner := change.value];
      ledger := ledger + [e];
      return Ok(e);
    }
  }

  /** The holder may have bookings of the type, and the size is a size. */
  predicate Legal(o: Owner, role: Role, bt: BizType, magnitude: Int64) {
    Registry(bt).Some? && (o.realm, role) in Registry(bt).value.roles && magnitude > 0
  }

  /** The service in front of the repository: validation decides the sign. */
  class Service {
    const repo: Repository

    constructor (repo: Repository)
      ensures this.repo == repo
    {
      this.repo := repo;
    }

    method Post(o: Owner, role: Role, bt: BizType, magnitude: Int64, note: string, author: Option<Id>,
        idem: Option<string>, newId: Id) returns (r: Result<Entry, PostError>)
      requires repo.Valid() && NewId(repo.ledger, newId)
      modifies repo
      ensures repo.Valid()
      ensures r.Ok? ==> Registry(bt).Some? && (o.realm, role) in Registry(bt).value.roles && magnitude > 0
      ensures r.Ok? && repo.ledger != old(repo.ledger) ==>
        && repo.ledger == old(repo.ledger) + [r.value] && r.value.owner == o && r.value.biz == bt
        && r.value.amount == (if Registry(bt).value.dir == Expense then -magnitude else magnitude)
        && repo.wallets == Booking(old(repo.wallets), r.value)
      ensures r.Err? || repo.ledger == old(repo.ledger) ==> repo.ledger == old(repo.ledger) && repo.wallets == old(repo.wallets)
      ensures Legal(o, role, bt, magnitude) && OnBooks(old(repo.ledger), idem) ==>
        r.Ok? && r.value in old(repo.ledger) && r.value.idem == idem && repo.ledger == old(repo.ledger)
      ensures Legal(o, role, bt, magnitude) && !OnBooks(old(repo.ledger), idem) ==>
        var amount := if Registry(bt).value.dir == Expense then -magnitude else magnitude;
        && (r.Ok? <==> Room(old(repo.ledger), o, amount))
        && (r == Err(InsufficientBalance) <==> Short(old(repo.ledger), o, amount))
        && (r.Ok? ==>
          && r.value == Entry(newId, o, amount, Sum(old(repo.ledger), o) + amount, bt, note, None, idem, author)
          && repo.ledger == old(repo.ledger) + [r.value])
      ensures r == Err(UnknownBizType) <==> Registry(bt).None?
      ensures r == Err(NotAllowed) <==> Registry(bt).Some? && (o.realm, role) !in Registry(bt).value.roles
      ensures r == Err(AmountSign) <==> Registry(bt).Some? && (o.realm, role) in Registry(bt).value.roles && magnitude <= 0
    {
      hide LedgerOk, WalletsOk, Sum, Count, Room, Short;
      SignedIsBooked(o, role, bt, magnitude);
      var amount := Signed(o, role, bt, magnitude);
      if amount.Err? {
        return Err(amount.error);
      }
      r := repo.Post(o, amount.value, bt, note, author, idem, newId);
    }
  }
}
