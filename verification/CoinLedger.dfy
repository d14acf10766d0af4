/**
 The ledger as the source of truth: what a well-formed ledger is, what the derived wallets
 say about it, and what appending a row does.
 */
module CoinLedger {
  import opened Basics
  import opened CoinModel

  datatype Wallet = Wallet(balance: int, version: int)
  const EMPTY_WALLET := Wallet(0, 0)

  type Wallets = map<Owner, Wallet>

  /** No row means no activity, which is balance 0. */
  function WalletOf(ws: Wallets, o: Owner): Wallet {
    if o in ws then ws[o] else EMPTY_WALLET
  }

  function Sum(l: seq<Entry>, o: Owner): int {
    if l == [] then 0
    else Sum(l[..|l| - 1], o) + if l[|l| - 1].owner == o then l[|l| - 1].amount else 0
  }

  function Count(l: seq<Entry>, o: Owner): nat {
    if l == [] then 0
    else Count(l[..|l| - 1], o) + if l[|l| - 1].owner == o then 1 else 0
  }

  lemma SumAppend(l: seq<Entry>, e: Entry, o: Owner)
    ensures Sum(l + [e], o) == Sum(l, o) + if e.owner == o then e.amount else 0
    ensures Count(l + [e], o) == Count(l, o) + if e.owner == o then 1 else 0
  {
    assert (l + [e])[..|l + [e]| - 1] == l;
  }

  /** Row j is what the reversal at i undoes: same owner and type, exactly the opposite amount, itself no reversal. */
  predicate Undoes(l: seq<Entry>, i: int, j: int) {
    && 0 <= j < i < |l|
    && l[i].reversalOf == Some(l[j].id) && l[j].reversalOf == None
    && l[i].owner == l[j].owner && l[i].amount == -l[j].amount && l[i].biz == l[j].biz
  }

  ghost predicate RowOk(l: seq<Entry>, i: int)
    requires 0 <= i < |l|
  {
    && (l[i].reversalOf.None? ==> Booked(l[i].biz, l[i].amount))
    && (l[i].reversalOf.Some? ==> exists j :: Undoes(l, i, j))
    && l[i].balanceAfter == Sum(l[..i + 1], l[i].owner)
  }

  /** The unique indexes on id, idempotency_key and reversal_of. */
  predicate Clash(a: Entry, b: Entry) {
    a.id == b.id || (a.idem.Some? && a.idem == b.idem) || (a.reversalOf.Some? && a.reversalOf == b.reversalOf)
  }

  ghost predicate LedgerOk(l: seq<Entry>) {
    && (forall i | 0 <= i < |l| :: RowOk(l, i))
    && (forall i, j | 0 <= i < j < |l| :: !Clash(l[i], l[j]))
  }

  ghost predicate WalletsOk(ws: Wallets, l: seq<Entry>) {
    forall o :: (
      && WalletOf(ws, o).balance == Sum(l, o) && 0 <= Sum(l, o) <= MAX64
      && WalletOf(ws, o).version == Count(l, o))
  }

  /** The wallet after a conditional update, if it is allowed; bigint overflow is an error. */
  function Changed(w: Wallet, delta: int): Result<Wallet, PostError> {
    if w.balance + delta > MAX64 then Err(Internal)
    else if w.balance + delta < 0 then Err(InsufficientBalance)
    else if w.version + 1 > MAX64 then Err(Internal)
    else Ok(Wallet(w.balance + delta, w.version + 1))
  }

  /** The owner's rows and one more amount add up to less than nothing. */
  predicate Short(l: seq<Entry>, o: Owner, delta: int) {
    Sum(l, o) + delta < 0
  }

  /** They do not, and neither the sum nor the number of rows outgrows a bigint. */
  predicate Room(l: seq<Entry>, o: Owner, delta: int) {
    0 <= Sum(l, o) + delta <= MAX64 && Count(l, o) + 1 <= MAX64
  }

  /** What becomes of a change, said of the ledger. */
  lemma ChangedExactly(ws: Wallets, l: seq<Entry>, o: Owner, delta: int)
    requires WalletsOk(ws, l)
    ensures Changed(WalletOf(ws, o), delta) ==
      if Short(l, o, delta) then Err(InsufficientBalance)
      else if Room(l, o, delta) then Ok(Wallet(Sum(l, o) + delta, Count(l, o) + 1))
      else Err(Internal)
  {
    assert WalletOf(ws, o).balance == Sum(l, o);
  }

  /** May e be appended? */
  ghost predicate Fitting(ws: Wallets, l: seq<Entry>, e: Entry) {
    && (forall i | 0 <= i < |l| :: !Clash(l[i], e))
    && (e.reversalOf.None? ==> Booked(e.biz, e.amount))
    && (e.reversalOf.Some? ==> exists j :: Undoes(l + [e], |l|, j))
    && e.balanceAfter == WalletOf(ws, e.owner).balance + e.amount
    && 0 <= e.balanceAfter <= MAX64
  }

  function Booking(ws: Wallets, e: Entry): Wallets {
    ws[e.owner := Wallet(e.balanceAfter, WalletOf(ws, e.owner).version + 1)]
  }

  lemma RowsStay(l: seq<Entry>, e: Entry, i: nat)
    requires i < |l| && RowOk(l, i)
    ensures RowOk(l + [e], i)
  {
    var m := l + [e];
    assert m[..i + 1] == l[..i + 1];
    if l[i].reversalOf.Some? {
      var j :| Undoes(l, i, j);
      assert Undoes(m, i, j);
    }
  }

  /** Appending a fitting row and moving its wallet keeps ledger and wallets in step. */
  lemma AppendKeeps(ws: Wallets, l: seq<Entry>, e: Entry)
    requires LedgerOk(l) && WalletsOk(ws, l) && Fitting(ws, l, e)
    ensures LedgerOk(l + [e]) && WalletsOk(Booking(ws, e), l + [e])
  {
    var m := l + [e];
    forall i | 0 <= i < |m| ensures RowOk(m, i) {
      if i < |l| {
        RowsStay(l, e, i);
      } else {
        assert m[..i + 1] == m;
        SumAppend(l, e, e.owner);
      }
    }
    forall o ensures WalletOf(Booking(ws, e), o).balance == Sum(m, o) && 0 <= Sum(m, o) <= MAX64
      && WalletOf(Booking(ws, e), o).version == Count(m, o)
    {
      SumAppend(l, e, o);
      assert WalletOf(ws, o).balance == Sum(l, o);
    }
  }

  lemma EmptyOk()
    ensures LedgerOk([]) && WalletsOk(map[], [])
  {
  }

  // --- Reversals ---

  function Reversed(l: seq<Entry>): set<Id> {
    set i | 0 <= i < |l| && l[i].reversalOf.Some? :: l[i].reversalOf.value
  }

  /** The amounts of an owner's rows that are neither reversals nor reversed. */
  function LiveSum(l: seq<Entry>, dead: set<Id>, o: Owner): int {
    if l == [] then 0
    else
      var e := l[|l| - 1];
      LiveSum(l[..|l| - 1], dead, o)
      + if e.owner == o && e.reversalOf.None? && e.id !in dead then e.amount else 0
  }

  lemma {:induction false} LiveSumSame(l: seq<Entry>, dead: set<Id>, id: Id, o: Owner)
    requires forall i | 0 <= i < |l| :: l[i].id != id
    ensures LiveSum(l, dead + {id}, o) == LiveSum(l, dead, o)
  {
    if l == [] {
    } else {
      LiveSumSame(l[..|l| - 1], dead, id, o);
    }
  }

  /** Reversing row j takes its amount out of the live sum, once. */
  lemma {:induction false} LiveSumDrop(l: seq<Entry>, dead: set<Id>, j: nat, o: Owner)
    requires j < |l| && l[j].reversalOf.None? && l[j].id !in dead
    requires forall i, k | 0 <= i < k < |l| :: l[i].id != l[k].id
    ensures LiveSum(l, dead + {l[j].id}, o) == LiveSum(l, dead, o) - if l[j].owner == o then l[j].amount else 0
  {
    var init, last := l[..|l| - 1], l[|l| - 1];
    if j == |l| - 1 {
      LiveSumSame(init, dead, last.id, o);
    } else {
      assert init[j] == l[j];
      LiveSumDrop(init, dead, j, o);
      assert last.id != l[j].id;
    }
  }

  lemma LedgerPrefix(l: seq<Entry>)
    requires LedgerOk(l) && l != []
    ensures LedgerOk(l[..|l| - 1])
  {
    var init := l[..|l| - 1];
    forall i | 0 <= i < |init| ensures RowOk(init, i) {
      assert RowOk(l, i);
      assert init[..i + 1] == l[..i + 1];
      if l[i].reversalOf.Some? {
        var j :| Undoes(l, i, j);
        assert Undoes(init, i, j);
      }
    }
  }

  lemma ReversedAppend(l: seq<Entry>)
    requires l != []
    ensures Reversed(l) == Reversed(l[..|l| - 1]) +
      if l[|l| - 1].reversalOf.Some? then {l[|l| - 1].reversalOf.value} else {}
  {
    var init, k := l[..|l| - 1], |l| - 1;
    forall x ensures x in Reversed(l) <==> x in Reversed(init) + if l[k].reversalOf.Some? then {l[k].reversalOf.value} else {} {
      if x in Reversed(l) {
        var i :| 0 <= i < |l| && l[i].reversalOf == Some(x);
        assert i < k ==> init[i].reversalOf == Some(x);
      }
      if x in Reversed(init) {
        var i :| 0 <= i < |init| && init[i].reversalOf == Some(x);
        assert l[i].reversalOf == Some(x);
      }
      if l[k].reversalOf == Some(x) {
        assert x in Reversed(l);
      }
    }
  }

  lemma TargetNotYet(l: seq<Entry>, k: nat)
    requires LedgerOk(l) && k < |l| && l[k].reversalOf.Some?
    ensures l[k].reversalOf.value !in Reversed(l[..k])
  {
    forall i | 0 <= i < k ensures l[..k][i].reversalOf != l[k].reversalOf {
      assert !Clash(l[i], l[k]);
    }
  }

  /** The balance is the sum of the rows that still count: reversed rows and reversals cancel out. */
  lemma {:induction false} SumIsLive(l: seq<Entry>, o: Owner)
    requires LedgerOk(l)
    ensures Sum(l, o) == LiveSum(l, Reversed(l), o)
  {
    if l == [] {
    } else {
      var init, k := l[..|l| - 1], |l| - 1;
      var e := l[k];
      LedgerPrefix(l);
      SumIsLive(init, o);
      ReversedAppend(l);
      if e.reversalOf.Some? {
        assert RowOk(l, k);
        var j :| Undoes(l, k, j);
        TargetNotYet(l, k);
        DistinctIds(init);
        LiveSumDrop(init, Reversed(init), j, o);
      } else {
        NotReversedYet(l);
        assert Reversed(l) == Reversed(init);
      }
    }
  }

  lemma DistinctIds(l: seq<Entry>)
    requires LedgerOk(l)
    ensures forall i, k | 0 <= i < k < |l| :: l[i].id != l[k].id
  {
    forall i, k | 0 <= i < k < |l| ensures l[i].id != l[k].id {
      assert !Clash(l[i], l[k]);
    }
  }

  /** A reversal comes after what it reverses, so the newest row is not reversed. */
  lemma NotReversedYet(l: seq<Entry>)
    requires LedgerOk(l) && l != []
    ensures l[|l| - 1].id !in Reversed(l[..|l| - 1])
  {
    var init, k := l[..|l| - 1], |l| - 1;
    forall i | 0 <= i < |init| && init[i].reversalOf.Some? ensures init[i].reversalOf.value != l[k].id {
      assert RowOk(l, i);
      var j :| Undoes(l, i, j);
      assert !Clash(l[j], l[k]);
    }
  }

  /** No row is reversed twice, and no reversal is reversed. */
  lemma ReversedOnce(l: seq<Entry>, i: nat, k: nat)
    requires LedgerOk(l) && i < |l| && k < |l| && l[i].reversalOf.Some?
    ensures l[k].reversalOf == l[i].reversalOf ==> i == k
    ensures l[k].id == l[i].reversalOf.value ==> l[k].reversalOf.None?
  {
    if i < k {
      assert !Clash(l[i], l[k]);
    } else if k < i {
      assert !Clash(l[k], l[i]);
    }
    assert RowOk(l, i);
    var j :| Undoes(l, i, j);
    if j < k {
      assert !Clash(l[j], l[k]);
    } else if k < j {
      assert !Clash(l[k], l[j]);
    }
  }

  /** Every row moved the balance from one prefix sum to the next; a booking has its type's direction. */
  lemma RowMeaning(l: seq<Entry>, i: nat)
    requires LedgerOk(l) && i < |l|
    ensures l[i].balanceAfter == Sum(l[..i], l[i].owner) + l[i].amount
    ensures l[i].amount != 0 && -MAX64 <= l[i].amount <= MAX64
    ensures l[i].reversalOf.None? ==> Registry(l[i].biz).Some? && DirectionOf(l[i].amount) == Registry(l[i].biz).value.dir
    ensures l[i].reversalOf.Some? ==> Registry(l[i].biz).Some? && DirectionOf(l[i].amount) != Registry(l[i].biz).value.dir
  {
    assert RowOk(l, i);
    assert l[..i + 1] == l[..i] + [l[i]];
    SumAppend(l[..i], l[i], l[i].owner);
    if l[i].reversalOf.Some? {
      var j :| Undoes(l, i, j);
      assert RowOk(l, j);
    }
  }

  lemma NoClash(l: seq<Entry>, i: nat, k: nat)
    requires LedgerOk(l) && i < |l| && k < |l| && i != k
    ensures !Clash(l[i], l[k])
  {
    hide RowOk;
    if k < i {
      assert !Clash(l[k], l[i]);
    }
  }
}
