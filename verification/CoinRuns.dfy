/** What holds over every run of interleaved posts and reversals, and why none of them can deadlock. */
module CoinRuns {
  import opened Basics
  import opened CoinModel
  import opened CoinLedger
  import opened CoinMachine

  predicate Start(s: State) {
    s == State(map[], [], map[])
  }

  ghost predicate IsRun(run: seq<State>) {
    && run != [] && Start(run[0])
    && forall i: nat | i + 1 < |run| :: Next(run[i], run[i + 1])
  }

  lemma {:induction false} Reachable(run: seq<State>, i: nat)
    requires IsRun(run) && i < |run|
    ensures Inv(run[i])
  {
    hide Inv, Next;
    if i == 0 {
      StartOk();
    } else {
      Reachable(run, i - 1);
      assert Next(run[i - 1], run[i - 1 + 1]);
      StepKeeps(run[i - 1], run[i]);
    }
  }

  lemma StartOk()
    ensures Inv(State(map[], [], map[]))
  {
    EmptyOk();
    hide LedgerOk, WalletsOk;
  }

  /**
   In every state of every interleaving a wallet is what its owner's rows add up to, never
   negative, its version their number; reversed rows and reversals cancel out.
   */
  lemma WalletsAlwaysDerived(run: seq<State>, i: nat, o: Owner)
    requires IsRun(run) && i < |run|
    ensures var s := run[i]; var w := WalletOf(s.wallets, o);
      && w.balance == Sum(s.ledger, o) == LiveSum(s.ledger, Reversed(s.ledger), o)
      && 0 <= w.balance <= MAX64 && w.version == Count(s.ledger, o)
  {
    Reachable(run, i);
    InvParts(run[i]);
    SumIsLive(run[i].ledger, o);
    hide Inv, IsRun, LedgerOk, AllOk, AllApart;
  }

  /** Each row's balance_after is the prefix sum at the row, and its amount is in range and of its type's sign. */
  lemma RowsAlwaysExact(run: seq<State>, i: nat, k: nat)
    requires IsRun(run) && i < |run| && k < |run[i].ledger|
    ensures var l := run[i].ledger;
      && l[k].balanceAfter == Sum(l[..k], l[k].owner) + l[k].amount
      && l[k].amount != 0 && -MAX64 <= l[k].amount <= MAX64
      && Registry(l[k].biz).Some?
      && (l[k].reversalOf.None? <==> DirectionOf(l[k].amount) == Registry(l[k].biz).value.dir)
  {
    Reachable(run, i);
    InvParts(run[i]);
    RowMeaning(run[i].ledger, k);
    hide Inv, IsRun, LedgerOk, WalletsOk, AllOk, AllApart;
  }

  /** A row is reversed at most once, by the exact opposite for the same owner, and no reversal is reversed. */
  lemma ReversalsAlwaysExact(run: seq<State>, i: nat, k: nat, m: nat)
    requires IsRun(run) && i < |run| && k < |run[i].ledger| && m < |run[i].ledger| && run[i].ledger[k].reversalOf.Some?
    ensures var l := run[i].ledger;
      && (l[m].reversalOf == l[k].reversalOf ==> m == k)
      && (l[m].id == l[k].reversalOf.value ==>
        m < k && l[m].reversalOf.None? && l[m].owner == l[k].owner && l[m].amount == -l[k].amount)
  {
    Reachable(run, i);
    InvParts(run[i]);
    var l := run[i].ledger;
    ReversedOnce(l, k, m);
    hide Inv, IsRun, WalletsOk, AllOk, AllApart;
    assert RowOk(l, k);
    var j :| Undoes(l, k, j);
    if m != j {
      NoClash(l, m, j);
    }
  }

  // --- Idempotency ---

  /** At most one row per key, ever. */
  lemma KeyBooksOnce(run: seq<State>, i: nat, k: nat, m: nat)
    requires IsRun(run) && i < |run| && k < |run[i].ledger| && m < |run[i].ledger|
    requires run[i].ledger[k].idem.Some? && run[i].ledger[k].idem == run[i].ledger[m].idem
    ensures k == m
  {
    Reachable(run, i);
    InvParts(run[i]);
    hide Inv, IsRun, WalletsOk, AllOk, AllApart, RowOk;
    if k != m {
      NoClash(run[i].ledger, k, m);
    }
  }

  /** Nothing is ever taken off the books. */
  lemma StepAppends(s: State, s': State)
    requires Next(s, s')
    ensures s.ledger <= s'.ledger
  {
    hide Blocked, Fresh, EntryOf;
    if t :| Executes(s, s', t) {
      if newId :| Inserts(s, s', t, newId) { }
    }
  }

  lemma {:induction false} BooksOnlyGrow(run: seq<State>, i: nat, j: nat)
    requires IsRun(run) && i <= j < |run|
    ensures run[i].ledger <= run[j].ledger
  {
    hide Next;
    if i == j {
    } else {
      BooksOnlyGrow(run, i, j - 1);
      assert Next(run[j - 1], run[j - 1 + 1]);
      StepAppends(run[j - 1], run[j]);
    }
  }

  /** Row e is what the transaction was asked to book. */
  ghost predicate BookedFor(l: seq<Entry>, x: Txn, e: Entry) {
    match x.job
    case PostJob(o, amount, bt, note, author, idem) =>
      && e.owner == o && e.amount == amount && e.biz == bt && e.note == note && e.createdBy == author && e.idem == idem
      && e.reversalOf == None
    case ReverseJob(target, author, note) =>
      && e.reversalOf == Some(target) && e.note == note && e.createdBy == Some(author) && e.idem == None
      && exists orig :: IsRow(l, target, orig) && Opposite(orig, e)
  }

  predicate Opposite(orig: Entry, e: Entry) {
    orig.reversalOf == None && e.owner == orig.owner && e.amount == -orig.amount && e.biz == orig.biz
  }

  /** From s to s', t books the one row e it was asked for, moves its owner's wallet and no other, and returns e. */
  ghost predicate Books(s: State, s': State, t: TxId, e: Entry)
    requires t in s.txns
  {
    && s'.ledger == s.ledger + [e] && BookedFor(s.ledger, s.txns[t], e)
    && t in s'.txns && s'.txns[t].phase == Done(Ok(e))
    && s'.wallets == s.wallets[e.owner := Wallet(Sum(s.ledger, e.owner) + e.amount, Count(s.ledger, e.owner) + 1)]
  }

  ghost predicate BooksOne(s: State, s': State, t: TxId)
    requires t in s.txns
  {
    exists e :: Books(s, s', t, e)
  }

  lemma CommitBooks(s: State, s': State, t: TxId)
    requires Inv(s) && t in s.txns && Executes(s, s', t) && s'.ledger != s.ledger
    ensures s.txns[t].phase.Inserted? && Books(s, s', t, s.txns[t].phase.entry)
  {
    InvParts(s);
    HeldOk(s, t);
    hide Inv, Blocked, Booked, Clash;
    assert Commits(s, s', t);
    assert WalletOf(s.wallets, OwnerOf(s.txns[t])).balance == Sum(s.ledger, OwnerOf(s.txns[t]));
  }

  /** The only way the books grow. */
  lemma GrowthIsBooking(run: seq<State>, i: nat, t: TxId)
    requires IsRun(run) && i + 1 < |run| && t in run[i].txns && Executes(run[i], run[i + 1], t)
    requires run[i + 1].ledger != run[i].ledger
    ensures BooksOne(run[i], run[i + 1], t)
  {
    Reachable(run, i);
    hide IsRun, Inv, Executes, Books;
    CommitBooks(run[i], run[i + 1], t);
  }

  /** The lookup of a key that is on the books returns that booking, and changes no wallet and no row. */
  lemma LookupFinds(s: State, s': State, t: TxId, e: Entry)
    requires Inv(s) && t in s.txns && s.txns[t].phase.Started? && s.txns[t].job.PostJob?
    requires HasKey(s.ledger, s.txns[t].job.idem, e) && Executes(s, s', t)
    ensures s' == Goes(s, t, Done(Ok(e)))
  {
    InvParts(s);
    hide Inv, WalletsOk, AllOk, AllApart, RowOk, Blocked;
    assert LooksUp(s, s', t);
    var d :| HasKey(s.ledger, s.txns[t].job.idem, d) && s' == Goes(s, t, Done(Ok(d)));
    OneRowPerKey(s.ledger, d, e);
  }

  lemma OneRowPerKey(l: seq<Entry>, d: Entry, e: Entry)
    requires LedgerOk(l) && d in l && e in l && d.idem.Some? && d.idem == e.idem
    ensures d == e
  {
    hide RowOk;
    var k: nat, m: nat :| k < |l| && l[k] == d && m < |l| && l[m] == e;
    if k != m {
      NoClash(l, k, m);
    }
  }

  /** A retry after the first commit: whenever it looks the key up, it gets the first booking and books nothing. */
  lemma RetryReturnsOriginal(run: seq<State>, i: nat, j: nat, t: TxId, e: Entry)
    requires IsRun(run) && i <= j && j + 1 < |run|
    requires t in run[j].txns && run[j].txns[t].phase.Started? && run[j].txns[t].job.PostJob?
    requires HasKey(run[i].ledger, run[j].txns[t].job.idem, e) && Executes(run[j], run[j + 1], t)
    ensures run[j + 1] == Goes(run[j], t, Done(Ok(e)))
    ensures run[j + 1].wallets == run[j].wallets && run[j + 1].ledger == run[j].ledger
  {
    Reachable(run, j);
    BooksOnlyGrow(run, i, j);
    hide Inv, IsRun, Executes;
    assert e in run[j].ledger;
    LookupFinds(run[j], run[j + 1], t, e);
  }

  /**
   The wallet change of a transaction: it goes through exactly when the owner's rows and the new amount
   add up to no less than zero and no more than the largest integer.
   */
  ghost predicate WalletDecides(s: State, s': State, t: TxId)
    requires t in s.txns
  {
    var o := OwnerOf(s.txns[t]);
    var delta := DeltaOf(s.txns[t]);
    s' == Goes(s, t,
      if Short(s.ledger, o, delta) then Done(Err(InsufficientBalance))
      else if Room(s.ledger, o, delta) then Applied(Wallet(Sum(s.ledger, o) + delta, Count(s.ledger, o) + 1))
      else Done(Err(Internal)))
  }

  lemma ChangeIsDecided(s: State, s': State, t: TxId)
    requires Inv(s) && t in s.txns && s.txns[t].phase.Ensured? && Executes(s, s', t)
    ensures WalletDecides(s, s', t)
  {
    InvParts(s);
    hide Inv, Blocked, WalletsOk;
    assert Applies(s, s', t);
    ChangedExactly(s.wallets, s.ledger, OwnerOf(s.txns[t]), DeltaOf(s.txns[t]));
    hide Sum, Count, Executes;
  }

  /** In every run, for posts and reversals alike. */
  lemma WalletAlwaysDecides(run: seq<State>, i: nat, t: TxId)
    requires IsRun(run) && i + 1 < |run| && t in run[i].txns && run[i].txns[t].phase.Ensured?
    requires Executes(run[i], run[i + 1], t)
    ensures WalletDecides(run[i], run[i + 1], t)
  {
    Reachable(run, i);
    hide IsRun, Inv, Executes, WalletDecides;
    ChangeIsDecided(run[i], run[i + 1], t);
  }

  /**
   One statement of a post whose key is on the books already. It books nothing; if the post ends with
   it, it returns that booking, unless its wallet change fails first.
   */
  ghost predicate Yields(s: State, s': State, t: TxId, e: Entry)
    requires t in s.txns
  {
    && s'.wallets == s.wallets && s'.ledger == s.ledger && t in s'.txns
    && if s.txns[t].phase.Ensured? then WalletDecides(s, s', t)
      else if s.txns[t].phase.Cleared? then s'.txns[t].phase.Ensured?
      else s'.txns[t].phase == Done(Ok(e))
  }

  lemma KnownKeyStep(s: State, s': State, t: TxId, e: Entry)
    requires Inv(s) && t in s.txns && s.txns[t].job.PostJob?
    requires HasKey(s.ledger, s.txns[t].job.idem, e) && Executes(s, s', t)
    ensures Yields(s, s', t, e)
  {
    InvParts(s);
    hide Inv, WalletsOk, AllApart, RowOk, Blocked, Booked;
    assert TxnOk(s, s.txns[t]);
    forall d | HasKey(s.ledger, s.txns[t].job.idem, d) ensures d == e {
      OneRowPerKey(s.ledger, d, e);
    }
    NotInserted(s, t, e);
    if s.txns[t].phase.Ensured? {
      ChangeIsDecided(s, s', t);
    }
    hide WalletDecides;
  }

  lemma ClearOfKey(l: seq<Entry>, e: Entry, x: Entry)
    requires e in l && (forall i | 0 <= i < |l| :: !Clash(l[i], x))
    ensures e.idem.None? || e.idem != x.idem
  {
    var k: nat :| k < |l| && l[k] == e;
    assert !Clash(l[k], x);
  }

  lemma NotInserted(s: State, t: TxId, e: Entry)
    requires t in s.txns && TxnOk(s, s.txns[t]) && s.txns[t].job.PostJob? && HasKey(s.ledger, s.txns[t].job.idem, e)
    ensures !s.txns[t].phase.Inserted?
  {
    hide Clash;
    if s.txns[t].phase.Inserted? {
      ClearOfKey(s.ledger, e, s.txns[t].phase.entry);
    }
  }

  /** Whatever a post has done so far when its key gets booked, this is what its statements can still do. */
  lemma LatePostYields(run: seq<State>, i: nat, j: nat, t: TxId, e: Entry)
    requires IsRun(run) && i <= j && j + 1 < |run| && t in run[j].txns && run[j].txns[t].job.PostJob?
    requires HasKey(run[i].ledger, run[j].txns[t].job.idem, e) && Executes(run[j], run[j + 1], t)
    ensures Yields(run[j], run[j + 1], t, e)
  {
    Reachable(run, j);
    BooksOnlyGrow(run, i, j);
    hide Inv, IsRun, Executes, Yields;
    assert e in run[j].ledger;
    KnownKeyStep(run[j], run[j + 1], t, e);
  }

  // --- What an answer means ---

  /** Row e is what a reversal of target is about. */
  ghost predicate Facts(s: State, target: Id, e: Entry, code: PostError) {
    IsRow(s.ledger, target, e) && match code
      case CannotReverseReversal => e.reversalOf.Some?
      case InsufficientBalance => e.reversalOf.None? && Short(s.ledger, e.owner, -e.amount)
      case Internal => e.reversalOf.None? && !Short(s.ledger, e.owner, -e.amount) && !Room(s.ledger, e.owner, -e.amount)
      case _ => false
  }

  ghost predicate SomeFacts(s: State, target: Id, code: PostError) {
    exists e :: Facts(s, target, e, code)
  }

  /** The statement that ends a transaction gives the one answer that is true of the books. */
  ghost predicate EndsTruly(s: State, s': State, t: TxId, r: Result<Entry, PostError>)
    requires t in s.txns
  {
    match s.txns[t].job
    case PostJob(o, amount, _, _, _, idem) => (
      match r
      case Ok(e) => Books(s, s', t, e) || (HasKey(s.ledger, idem, e) && s'.ledger == s.ledger && s'.wallets == s.wallets)
      case Err(InsufficientBalance) => Short(s.ledger, o, amount)
      case Err(Internal) => !Short(s.ledger, o, amount) && !Room(s.ledger, o, amount)
      case Err(_) => false)
    case ReverseJob(target, _, _) =>
      match r
      case Ok(e) => Books(s, s', t, e)
      case Err(NotFound) => forall e :: !IsRow(s.ledger, target, e)
      case Err(AlreadyReversed) => Undone(s.ledger, target)
      case Err(code) => SomeFacts(s, target, code)
  }

  lemma ReverseFacts(s: State, t: TxId)
    requires t in s.txns && TxnOk(s, s.txns[t]) && s.txns[t].job.ReverseJob? && s.txns[t].phase.Ensured?
    ensures var x := s.txns[t]; var d := DeltaOf(x);
      && (Short(s.ledger, OwnerOf(x), d) ==> SomeFacts(s, x.job.target, InsufficientBalance))
      && (!Short(s.ledger, OwnerOf(x), d) && !Room(s.ledger, OwnerOf(x), d) ==> SomeFacts(s, x.job.target, Internal))
  {
    hide Short, Room;
    var x := s.txns[t];
    assert Short(s.ledger, OwnerOf(x), DeltaOf(x)) ==> Facts(s, x.job.target, x.orig.value, InsufficientBalance);
    assert !Short(s.ledger, OwnerOf(x), DeltaOf(x)) && !Room(s.ledger, OwnerOf(x), DeltaOf(x)) ==>
      Facts(s, x.job.target, x.orig.value, Internal);
  }

  lemma StepEndsTruly(s: State, s': State, t: TxId)
    requires Inv(s) && t in s.txns && Executes(s, s', t) && t in s'.txns && s'.txns[t].phase.Done?
    ensures EndsTruly(s, s', t, s'.txns[t].phase.result)
  {
    HeldOk(s, t);
    if s'.ledger != s.ledger {
      CommitBooks(s, s', t);
    } else if s.txns[t].phase.Ensured? {
      ChangeIsDecided(s, s', t);
      RoomOrShort(s.ledger, OwnerOf(s.txns[t]), DeltaOf(s.txns[t]));
      if s.txns[t].job.ReverseJob? {
        ReverseFacts(s, t);
      }
      hide Inv, TxnOk, Executes, Short, Room, SomeFacts;
    } else {
      hide Inv, TxnOk, Blocked, Short, Room, Books;
      if Locates(s, s', t) && s'.txns[t].phase == Done(Err(CannotReverseReversal)) {
        FacingFacts(s, s', t);
      }
    }
  }

  lemma RoomOrShort(l: seq<Entry>, o: Owner, delta: int)
    ensures !(Room(l, o, delta) && Short(l, o, delta))
  {
  }

  lemma FacingFacts(s: State, s': State, t: TxId)
    requires t in s.txns && Locates(s, s', t) && s'.txns[t].phase == Done(Err(CannotReverseReversal))
    ensures SomeFacts(s, s.txns[t].job.target, CannotReverseReversal)
  {
    hide Short, Room;
    var target := s.txns[t].job.target;
    var e :| IsRow(s.ledger, target, e) && s' == Facing(s, t, e);
    assert Facts(s, target, e, CannotReverseReversal);
  }

  /** In every run, the answer a transaction ends with is true when it ends. */
  lemma AnswersAreTrue(run: seq<State>, i: nat, t: TxId)
    requires IsRun(run) && i + 1 < |run| && t in run[i].txns && Executes(run[i], run[i + 1], t)
    requires t in run[i + 1].txns && run[i + 1].txns[t].phase.Done?
    ensures EndsTruly(run[i], run[i + 1], t, run[i + 1].txns[t].phase.result)
  {
    Reachable(run, i);
    hide IsRun, Inv, Executes, EndsTruly;
    StepEndsTruly(run[i], run[i + 1], t);
  }

  // --- Locks ---

  /** The highest kind of lock held: ledger row, then wallet row, then unique key. */
  function Rank(x: Txn): int {
    if x.phase.Inserted? then 3
    else if x.phase.Applied? || (x.phase.Ensured? && x.phase.inserted) then 2
    else if x.job.ReverseJob? && !x.phase.Started? && !x.phase.Done? then 1
    else 0
  }

  /** Whoever waits holds only lower locks than whoever it waits for. */
  lemma WaitsUpwards(s: State, t: TxId, u: TxId)
    requires Inv(s) && WaitsFor(s, t, u)
    ensures Rank(s.txns[t]) < Rank(s.txns[u])
  {
    HeldApart(s, t, u);
    hide Inv, Clash;
    assert s.txns[t].phase.Ensured? && s.txns[t].phase.inserted ==> LocksWallet(s.txns[t], OwnerOf(s.txns[t]));
  }

  ghost predicate WaitChain(s: State, path: seq<TxId>) {
    forall i: nat | i + 1 < |path| :: WaitsFor(s, path[i], path[i + 1])
  }

  /** The wait-for graph has no cycle. */
  lemma {:induction false} NoDeadlock(s: State, path: seq<TxId>)
    requires Inv(s) && WaitChain(s, path) && |path| >= 2
    ensures path[0] in s.txns && path[|path| - 1] in s.txns
    ensures Rank(s.txns[path[0]]) < Rank(s.txns[path[|path| - 1]]) && path[0] != path[|path| - 1]
  {
    hide Inv, WaitsFor, Rank;
    var n := |path|;
    assert WaitsFor(s, path[n - 2], path[n - 2 + 1]);
    WaitersKnown(s, path[n - 2], path[n - 1]);
    WaitsUpwards(s, path[n - 2], path[n - 1]);
    if n == 2 {
    } else {
      var init := path[..n - 1];
      forall i: nat | i + 1 < |init| ensures WaitsFor(s, init[i], init[i + 1]) {
        assert WaitsFor(s, path[i], path[i + 1]);
      }
      NoDeadlock(s, init);
    }
  }

  lemma WaitersKnown(s: State, t: TxId, u: TxId)
    requires WaitsFor(s, t, u)
    ensures t in s.txns && u in s.txns && !s.txns[u].phase.Done?
  {
  }

  ghost predicate InFlight(s: State, t: TxId) {
    t in s.txns && !s.txns[t].phase.Done?
  }

  /** Behind every transaction in flight there is one that waits for nobody. */
  lemma Runner(s: State, t: TxId) returns (u: TxId)
    requires Inv(s) && InFlight(s, t)
    ensures InFlight(s, u) && !Blocked(s, u)
    decreases 3 - Rank(s.txns[t])
  {
    hide Inv, WaitsFor;
    if Blocked(s, t) {
      var v :| WaitsFor(s, t, v);
      WaitersKnown(s, t, v);
      WaitsUpwards(s, t, v);
      u := Runner(s, v);
    } else {
      u := t;
    }
  }

  lemma {:induction false} Above(ids: set<Id>) returns (b: Id)
    ensures forall x | x in ids :: x < b
    decreases ids
  {
    if ids == {} {
      b := 0;
    } else {
      var x :| x in ids;
      var c := Above(ids - {x});
      b := if x < c then c else x + 1;
      forall y | y in ids ensures y < b {
        assert y == x || y in ids - {x};
      }
    }
  }

  lemma SomeFresh(s: State) returns (id: Id)
    ensures Fresh(s, id)
  {
    var rows := set i | 0 <= i < |s.ledger| :: s.ledger[i].id;
    var pending := set u | u in s.txns && s.txns[u].phase.Inserted? :: s.txns[u].phase.entry.id;
    id := Above(rows + pending);
    forall i | 0 <= i < |s.ledger| ensures s.ledger[i].id != id {
      assert s.ledger[i].id in rows + pending;
    }
    forall u | u in s.txns && s.txns[u].phase.Inserted? ensures s.txns[u].phase.entry.id != id {
      assert s.txns[u].phase.entry.id in rows + pending;
    }
  }

  /** A transaction that is not blocked can take its next step. */
  lemma CanStep(s: State, t: TxId) returns (s': State)
    requires Inv(s) && InFlight(s, t) && !Blocked(s, t)
    ensures Executes(s, s', t)
  {
    HeldOk(s, t);
    hide Inv, Blocked, Booked, PendingOk, EntryOk, EntryOf, Fresh;
    var x := s.txns[t];
    match x.phase {
      case Started =>
        if x.job.PostJob? {
          s' := Lookup(s, t);
        } else {
          s' := Location(s, t);
        }
      case Located =>
        s' := Goes(s, t, if Undone(s.ledger, x.job.target) then Done(Err(AlreadyReversed)) else Cleared);
        assert ChecksReversed(s, s', t);
      case Cleared =>
        s' := Goes(s, t, Ensured(OwnerOf(x) !in s.wallets));
        assert Ensures(s, s', t);
      case Ensured(_) =>
        match Changed(WalletOf(s.wallets, OwnerOf(x)), DeltaOf(x)) {
          case Ok(w) => s' := Goes(s, t, Applied(w));
          case Err(e) => s' := Goes(s, t, Done(Err(e)));
        }
        assert Applies(s, s', t);
      case Applied(_) =>
        s' := Insertion(s, t);
      case Inserted(w, e) =>
        s' := State(s.wallets[OwnerOf(x) := w], s.ledger + [e], s.txns[t := x.(phase := Done(Ok(e)))]);
        assert Commits(s, s', t);
    }
  }

  lemma Lookup(s: State, t: TxId) returns (s': State)
    requires t in s.txns && s.txns[t].phase.Started? && s.txns[t].job.PostJob?
    ensures LooksUp(s, s', t)
  {
    if e :| HasKey(s.ledger, s.txns[t].job.idem, e) {
      s' := Goes(s, t, Done(Ok(e)));
    } else {
      s' := Goes(s, t, Cleared);
    }
  }

  lemma Location(s: State, t: TxId) returns (s': State)
    requires t in s.txns && s.txns[t].phase.Started? && s.txns[t].job.ReverseJob?
    ensures Locates(s, s', t)
  {
    var target := s.txns[t].job.target;
    if e :| IsRow(s.ledger, target, e) {
      s' := Facing(s, t, e);
    } else {
      s' := Goes(s, t, Done(Err(NotFound)));
    }
  }

  lemma Insertion(s: State, t: TxId) returns (s': State)
    requires t in s.txns && s.txns[t].phase.Applied?
    ensures exists newId :: Inserts(s, s', t, newId)
  {
    var newId := SomeFresh(s);
    var x := s.txns[t];
    var done := Goes(s, t, Inserted(x.phase.wallet, EntryOf(x, newId, x.phase.wallet.balance)));
    if x.job.PostJob? {
      if e :| HasKey(s.ledger, x.job.idem, e) {
        s' := Goes(s, t, Done(Ok(e)));
      } else {
        s' := done;
      }
    } else {
      s' := if Undone(s.ledger, x.job.target) then Goes(s, t, Done(Err(AlreadyReversed))) else done;
    }
    assert Inserts(s, s', t, newId);
  }

  /** While any transaction is in flight, some transaction can execute its next statement. */
  lemma SomeoneCanStep(run: seq<State>, i: nat, t: TxId) returns (u: TxId, s': State)
    requires IsRun(run) && i < |run| && InFlight(run[i], t)
    ensures InFlight(run[i], u) && Executes(run[i], s', u)
  {
    Reachable(run, i);
    hide IsRun, Inv, Executes;
    u := Runner(run[i], t);
    s' := CanStep(run[i], u);
  }
}
