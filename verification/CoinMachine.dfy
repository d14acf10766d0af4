/**
 Concurrent posts and reversals (internal/coin/repository.go): each transaction goes through
 its statements one at a time, any number interleave, and row locks and unique indexes are
 those of PostgreSQL at READ COMMITTED.
 */
module CoinMachine {
  import opened Basics
  import opened CoinModel
  import opened CoinLedger

  type TxId = nat

  datatype Job =
    | PostJob(owner: Owner, amount: int, biz: BizType, note: string, author: Option<Id>, idem: Option<string>)
    | ReverseJob(target: Id, operator: Id, remark: string)

  /**
   Where a transaction stands. Located holds the original it has locked; Ensured knows whether it
   inserted the wallet row itself; Applied holds the new wallet; Inserted holds the new row.
   */
  datatype Phase =
    | Started
    | Located
    | Cleared
    | Ensured(inserted: bool)
    | Applied(wallet: Wallet)
    | Inserted(wallet: Wallet, entry: Entry)
    | Done(result: Result<Entry, PostError>)

  /** orig is the original row of a reversal, once located. */
  datatype Txn = Txn(job: Job, orig: Option<Entry>, phase: Phase)

  datatype State = State(wallets: Wallets, ledger: seq<Entry>, txns: map<TxId, Txn>)

  function OwnerOf(x: Txn): Owner {
    match x.job
    case PostJob(o, _, _, _, _, _) => o
    case ReverseJob(_, _, _) => if x.orig.Some? then x.orig.value.owner else Owner(Web, NIL)
  }

  function DeltaOf(x: Txn): int {
    match x.job
    case PostJob(_, a, _, _, _, _) => a
    case ReverseJob(_, _, _) => if x.orig.Some? then -x.orig.value.amount else 0
  }

  /** The row a transaction inserts. */
  function EntryOf(x: Txn, newId: Id, balance: int): Entry {
    match x.job
    case PostJob(o, a, bt, note, author, idem) => Entry(newId, o, a, balance, bt, note, None, idem, author)
    case ReverseJob(target, author, note) =>
      Entry(newId, OwnerOf(x), DeltaOf(x), balance, if x.orig.Some? then x.orig.value.biz else OtherBiz(""), note,
        Some(target), None, Some(author))
  }

  // --- Queries on committed rows ---

  ghost predicate IsRow(l: seq<Entry>, id: Id, e: Entry) {
    e in l && e.id == id
  }

  ghost predicate HasKey(l: seq<Entry>, idem: Option<string>, e: Entry) {
    e in l && idem.Some? && e.idem == idem
  }

  ghost predicate Reverses(l: seq<Entry>, target: Id, e: Entry) {
    e in l && e.reversalOf == Some(target)
  }

  ghost predicate Known(l: seq<Entry>, idem: Option<string>) {
    exists e :: HasKey(l, idem, e)
  }

  ghost predicate Undone(l: seq<Entry>, target: Id) {
    exists e :: Reverses(l, target, e)
  }

  // --- Locks: what is held follows from the phase, what is wanted from the next statement ---

  predicate LocksRow(x: Txn, id: Id) {
    x.job.ReverseJob? && x.job.target == id && !x.phase.Started? && !x.phase.Done?
  }

  predicate LocksWallet(x: Txn, o: Owner) {
    OwnerOf(x) == o && ((x.phase.Ensured? && x.phase.inserted) || x.phase.Applied? || x.phase.Inserted?)
  }

  /** An uncommitted index entry makes other inserters of the same key wait. */
  predicate LocksKey(x: Txn, y: Txn) {
    x.phase.Inserted? && (
      || (x.job.PostJob? && y.job.PostJob? && x.job.idem.Some? && x.job.idem == y.job.idem)
      || (x.job.ReverseJob? && y.job.ReverseJob? && x.job.target == y.job.target))
  }

  /** Transaction t cannot take its next step before u ends. */
  ghost predicate WaitsFor(s: State, t: TxId, u: TxId) {
    && t in s.txns && u in s.txns && t != u
    && var x, y := s.txns[t], s.txns[u];
      match x.phase
      case Started => x.job.ReverseJob? && LocksRow(y, x.job.target)
      case Cleared => OwnerOf(x) !in s.wallets && LocksWallet(y, OwnerOf(x))
      case Ensured(_) => LocksWallet(y, OwnerOf(x))
      case Applied(_) => LocksKey(y, x)
      case _ => false
  }

  ghost predicate Blocked(s: State, t: TxId) {
    exists u :: WaitsFor(s, t, u)
  }

  // --- Steps ---

  /** The state after t has gone to phase p. */
  function Goes(s: State, t: TxId, p: Phase): State
    requires t in s.txns
  {
    s.(txns := s.txns[t := s.txns[t].(phase := p)])
  }

  /** A service call passed validation and opens a transaction. */
  ghost predicate Opens(s: State, s': State, t: TxId, job: Job) {
    && t !in s.txns
    && (job.PostJob? ==> Booked(job.biz, job.amount))
    && s' == s.(txns := s.txns[t := Txn(job, None, Started)])
  }

  /** Post: look the key up; a committed booking is returned as it is. */
  ghost predicate LooksUp(s: State, s': State, t: TxId) {
    && t in s.txns && s.txns[t].phase.Started? && s.txns[t].job.PostJob?
    && var idem := s.txns[t].job.idem;
      || (exists e :: HasKey(s.ledger, idem, e) && s' == Goes(s, t, Done(Ok(e))))
      || (!Known(s.ledger, idem) && s' == Goes(s, t, Cleared))
  }

  /** Reverse, with the original row locked; a reversal is final. */
  function Facing(s: State, t: TxId, e: Entry): State
    requires t in s.txns
  {
    if e.reversalOf.Some? then Goes(s, t, Done(Err(CannotReverseReversal)))
    else s.(txns := s.txns[t := s.txns[t].(orig := Some(e), phase := Located)])
  }

  /** Reverse: lock the original row. */
  ghost predicate Locates(s: State, s': State, t: TxId) {
    && t in s.txns && s.txns[t].phase.Started? && s.txns[t].job.ReverseJob?
    && var target := s.txns[t].job.target;
      || (exists e :: IsRow(s.ledger, target, e) && s' == Facing(s, t, e))
      || ((forall e :: !IsRow(s.ledger, target, e)) && s' == Goes(s, t, Done(Err(NotFound))))
  }

  ghost predicate ChecksReversed(s: State, s': State, t: TxId) {
    && t in s.txns && s.txns[t].phase.Located? && s.txns[t].job.ReverseJob?
    && if Undone(s.ledger, s.txns[t].job.target) then s' == Goes(s, t, Done(Err(AlreadyReversed)))
      else s' == Goes(s, t, Cleared)
  }

  /** INSERT ... ON CONFLICT DO NOTHING. */
  ghost predicate Ensures(s: State, s': State, t: TxId) {
    && t in s.txns && s.txns[t].phase.Cleared?
    && s' == Goes(s, t, Ensured(OwnerOf(s.txns[t]) !in s.wallets))
  }

  /** The conditional UPDATE, on the latest committed balance. */
  ghost predicate Applies(s: State, s': State, t: TxId) {
    && t in s.txns && s.txns[t].phase.Ensured?
    && match Changed(WalletOf(s.wallets, OwnerOf(s.txns[t])), DeltaOf(s.txns[t]))
      case Ok(w) => s' == Goes(s, t, Applied(w))
      case Err(e) => s' == Goes(s, t, Done(Err(e)))
  }

  /** No row, committed or not, has the id yet. */
  predicate Fresh(s: State, id: Id) {
    && (forall i | 0 <= i < |s.ledger| :: s.ledger[i].id != id)
    && (forall u | u in s.txns && s.txns[u].phase.Inserted? :: s.txns[u].phase.entry.id != id)
  }

  /** The ledger insert: the loser of a race rolls back, and a post returns the winner's row. */
  ghost predicate Inserts(s: State, s': State, t: TxId, newId: Id) {
    && t in s.txns && s.txns[t].phase.Applied? && Fresh(s, newId)
    && var x := s.txns[t];
      match x.job
      case PostJob(_, _, _, _, _, idem) =>
        || (exists e :: HasKey(s.ledger, idem, e) && s' == Goes(s, t, Done(Ok(e))))
        || (!Known(s.ledger, idem)
          && s' == Goes(s, t, Inserted(x.phase.wallet, EntryOf(x, newId, x.phase.wallet.balance))))
      case ReverseJob(target, _, _) =>
        if Undone(s.ledger, target) then s' == Goes(s, t, Done(Err(AlreadyReversed)))
        else s' == Goes(s, t, Inserted(x.phase.wallet, EntryOf(x, newId, x.phase.wallet.balance)))
  }

  ghost predicate Commits(s: State, s': State, t: TxId) {
    && t in s.txns && s.txns[t].phase.Inserted?
    && var x := s.txns[t];
      && s'.wallets == s.wallets[OwnerOf(x) := x.phase.wallet]
      && s'.ledger == s.ledger + [x.phase.entry]
      && s'.txns == s.txns[t := x.(phase := Done(Ok(x.phase.entry)))]
  }

  /** A lost connection or a cancelled request rolls back at any point. */
  ghost predicate Aborts(s: State, s': State, t: TxId) {
    t in s.txns && !s.txns[t].phase.Done? && s' == Goes(s, t, Done(Err(Internal)))
  }

  /** One statement of a transaction. */
  ghost predicate Executes(s: State, s': State, t: TxId) {
    !Blocked(s, t) && (
      || LooksUp(s, s', t) || Locates(s, s', t) || ChecksReversed(s, s', t) || Ensures(s, s', t)
      || Applies(s, s', t) || (exists newId :: Inserts(s, s', t, newId)) || Commits(s, s', t))
  }

  ghost predicate Next(s: State, s': State) {
    || (exists t, job :: Opens(s, s', t, job))
    || (exists t :: Executes(s, s', t))
    || (exists t :: Aborts(s, s', t))
  }

  // --- The invariant ---

  /** What a transaction in flight knows stays true while it holds its locks. */
  ghost predicate TxnOk(s: State, x: Txn) {
    && (x.job.PostJob? ==> Booked(x.job.biz, x.job.amount))
    && (x.job.ReverseJob? && !x.phase.Started? && !x.phase.Done? ==>
      x.orig.Some? && IsRow(s.ledger, x.job.target, x.orig.value) && x.orig.value.reversalOf.None?)
    && (x.phase.Located? ==> x.job.ReverseJob?)
    && (x.phase.Ensured? && x.phase.inserted ==> OwnerOf(x) !in s.wallets)
    && (x.phase.Ensured? && !x.phase.inserted ==> OwnerOf(x) in s.wallets)
    && (x.phase.Applied? || x.phase.Inserted? ==> PendingOk(s, x, x.phase.wallet))
    && (x.phase.Inserted? ==> EntryOk(s, x, x.phase.entry))
  }

  ghost predicate PendingOk(s: State, x: Txn, w: Wallet) {
    var was := WalletOf(s.wallets, OwnerOf(x));
    w == Wallet(was.balance + DeltaOf(x), was.version + 1) && 0 <= w.balance <= MAX64
  }

  /** The pending row clashes with no committed one. */
  ghost predicate EntryOk(s: State, x: Txn, e: Entry)
    requires x.phase.Inserted?
  {
    && e == EntryOf(x, e.id, x.phase.wallet.balance)
    && forall i | 0 <= i < |s.ledger| :: !Clash(s.ledger[i], e)
  }

  /** No two transactions hold the same lock, and pending rows do not clash. */
  ghost predicate Apart(x: Txn, y: Txn) {
    && (forall id :: !(LocksRow(x, id) && LocksRow(y, id)))
    && (forall o :: !(LocksWallet(x, o) && LocksWallet(y, o)))
    && (x.phase.Inserted? && y.phase.Inserted? ==> !Clash(x.phase.entry, y.phase.entry))
  }

  ghost predicate AllOk(s: State) {
    forall t | t in s.txns :: TxnOk(s, s.txns[t])
  }

  ghost predicate AllApart(s: State) {
    forall t, u | t in s.txns && u in s.txns && t != u :: Apart(s.txns[t], s.txns[u])
  }

  ghost predicate Inv(s: State) {
    LedgerOk(s.ledger) && WalletsOk(s.wallets, s.ledger) && AllOk(s) && AllApart(s)
  }

  // --- Every step keeps the invariant ---

  /** t becomes x, with nothing committed. */
  ghost predicate Becomes(s: State, s': State, t: TxId, x: Txn) {
    s'.wallets == s.wallets && s'.ledger == s.ledger && s'.txns == s.txns[t := x]
  }

  lemma LocalKeeps(s: State, s': State, t: TxId, x: Txn)
    requires Inv(s) && Becomes(s, s', t, x) && TxnOk(s, x)
    requires forall u | u in s.txns && u != t :: Apart(x, s.txns[u])
    ensures Inv(s')
  {
    hide LedgerOk, WalletsOk, Apart;
    forall u | u in s'.txns ensures TxnOk(s', s'.txns[u]) {
      var y := s'.txns[u];
      assert TxnOk(s, y);
      hide PendingOk;
      SameCommitted(s, s', y);
    }
    forall u, v | u in s'.txns && v in s'.txns && u != v ensures Apart(s'.txns[u], s'.txns[v]) {
      if v == t {
        ApartSymmetric(x, s'.txns[u]);
      }
    }
  }

  lemma SameCommitted(s: State, s': State, y: Txn)
    requires TxnOk(s, y) && s'.wallets == s.wallets && s'.ledger == s.ledger
    ensures TxnOk(s', y)
  {
  }

  lemma ApartSymmetric(x: Txn, y: Txn)
    requires Apart(x, y)
    ensures Apart(y, x)
  {
  }

  lemma HeldApart(s: State, t: TxId, u: TxId)
    requires Inv(s) && t in s.txns && u in s.txns && t != u
    ensures Apart(s.txns[t], s.txns[u])
  {
    hide LedgerOk, WalletsOk, AllOk, Apart;
  }

  lemma HeldOk(s: State, t: TxId)
    requires Inv(s) && t in s.txns
    ensures TxnOk(s, s.txns[t])
  {
    hide LedgerOk, WalletsOk, AllApart, TxnOk;
  }

  /** A phase that holds no more locks than before stays apart from the others. */
  lemma FewerLocks(x: Txn, x': Txn, y: Txn)
    requires Apart(x, y)
    requires forall id | LocksRow(x', id) :: LocksRow(x, id)
    requires forall o | LocksWallet(x', o) :: LocksWallet(x, o)
    requires !x'.phase.Inserted?
    ensures Apart(x', y)
  {
  }

  /** A step that takes no new lock. */
  lemma QuietKeeps(s: State, s': State, t: TxId, p: Phase)
    requires Inv(s) && t in s.txns && s' == Goes(s, t, p)
    requires var x := s.txns[t]; var x' := x.(phase := p);
      && TxnOk(s, x') && !p.Inserted? && !p.Started?
      && (forall id | LocksRow(x', id) :: LocksRow(x, id))
      && (forall o | LocksWallet(x', o) :: LocksWallet(x, o))
    ensures Inv(s')
  {
    var x := s.txns[t];
    var x' := x.(phase := p);
    forall u | u in s.txns && u != t ensures Apart(x', s.txns[u]) {
      HeldApart(s, t, u);
      FewerLocks(x, x', s.txns[u]);
    }
    hide Inv, TxnOk, Apart, LocksRow, LocksWallet;
    LocalKeeps(s, s', t, x');
  }

  lemma EndKeeps(s: State, s': State, t: TxId, r: Result<Entry, PostError>)
    requires Inv(s) && t in s.txns && s' == Goes(s, t, Done(r))
    ensures Inv(s')
  {
    HeldOk(s, t);
    hide Inv;
    QuietKeeps(s, s', t, Done(r));
  }

  lemma OpensKeeps(s: State, s': State, t: TxId, job: Job)
    requires Inv(s) && Opens(s, s', t, job)
    ensures Inv(s')
  {
    hide Inv, Booked;
    LocalKeeps(s, s', t, Txn(job, None, Started));
  }

  lemma LooksUpKeeps(s: State, s': State, t: TxId)
    requires Inv(s) && LooksUp(s, s', t)
    ensures Inv(s')
  {
    HeldOk(s, t);
    hide Inv, Booked;
    if e :| HasKey(s.ledger, s.txns[t].job.idem, e) && s' == Goes(s, t, Done(Ok(e))) {
      EndKeeps(s, s', t, Ok(e));
    } else {
      QuietKeeps(s, s', t, Cleared);
    }
  }

  lemma LocatesKeeps(s: State, s': State, t: TxId)
    requires Inv(s) && Locates(s, s', t) && !Blocked(s, t)
    ensures Inv(s')
  {
    HeldOk(s, t);
    hide Inv, Booked;
    var x := s.txns[t];
    var target := x.job.target;
    if e :| IsRow(s.ledger, target, e) && s' == Facing(s, t, e) {
      if e.reversalOf.Some? {
        EndKeeps(s, s', t, Err(CannotReverseReversal));
      } else {
        var x' := x.(orig := Some(e), phase := Located);
        forall u | u in s.txns && u != t ensures Apart(x', s.txns[u]) {
          assert !WaitsFor(s, t, u);
        }
        LocalKeeps(s, s', t, x');
      }
    } else {
      EndKeeps(s, s', t, Err(NotFound));
    }
  }

  lemma ChecksReversedKeeps(s: State, s': State, t: TxId)
    requires Inv(s) && ChecksReversed(s, s', t)
    ensures Inv(s')
  {
    HeldOk(s, t);
    hide Inv, Booked;
    if s' == Goes(s, t, Done(Err(AlreadyReversed))) {
      EndKeeps(s, s', t, Err(AlreadyReversed));
    } else {
      QuietKeeps(s, s', t, Cleared);
    }
  }

  lemma EnsuresKeeps(s: State, s': State, t: TxId)
    requires Inv(s) && Ensures(s, s', t) && !Blocked(s, t)
    ensures Inv(s')
  {
    HeldOk(s, t);
    var x := s.txns[t];
    var x' := x.(phase := Ensured(OwnerOf(x) !in s.wallets));
    forall u | u in s.txns && u != t ensures Apart(x', s.txns[u]) {
      HeldApart(s, t, u);
      assert !WaitsFor(s, t, u);
    }
    hide Inv, Booked, Apart;
    LocalKeeps(s, s', t, x');
  }

  /** The wallet t is about to hold. */
  function AppliedWallet(s: State, x: Txn): Wallet {
    var w := WalletOf(s.wallets, OwnerOf(x));
    Wallet(w.balance + DeltaOf(x), w.version + 1)
  }

  lemma AppliedApart(s: State, t: TxId, u: TxId)
    requires Inv(s) && t in s.txns && u in s.txns && u != t && s.txns[t].phase.Ensured? && !Blocked(s, t)
    ensures Apart(s.txns[t].(phase := Applied(AppliedWallet(s, s.txns[t]))), s.txns[u])
  {
    HeldApart(s, t, u);
    hide Inv, AppliedWallet, Clash;
    assert !WaitsFor(s, t, u);
  }

  lemma AppliedOk(s: State, t: TxId)
    requires Inv(s) && t in s.txns && s.txns[t].phase.Ensured?
    requires 0 <= AppliedWallet(s, s.txns[t]).balance <= MAX64
    ensures TxnOk(s, s.txns[t].(phase := Applied(AppliedWallet(s, s.txns[t]))))
  {
    HeldOk(s, t);
    hide Inv, Booked;
  }

  lemma AppliesKeeps(s: State, s': State, t: TxId)
    requires Inv(s) && Applies(s, s', t) && !Blocked(s, t)
    ensures Inv(s')
  {
    hide Inv, Blocked, TxnOk, Apart;
    var x := s.txns[t];
    var p := Applied(AppliedWallet(s, x));
    if s' == Goes(s, t, p) && 0 <= AppliedWallet(s, x).balance <= MAX64 {
      hide AppliedWallet;
      AppliedOk(s, t);
      forall u | u in s.txns && u != t ensures Apart(x.(phase := p), s.txns[u]) {
        AppliedApart(s, t, u);
      }
      LocalKeeps(s, s', t, x.(phase := p));
    } else {
      EndKeeps(s, s', t, s'.txns[t].phase.result);
    }
  }

  lemma NewRowClear(s: State, t: TxId, newId: Id, i: nat)
    requires Inv(s) && t in s.txns && s.txns[t].phase.Applied? && Fresh(s, newId) && i < |s.ledger|
    requires var x := s.txns[t];
      if x.job.PostJob? then !Known(s.ledger, x.job.idem) else !Undone(s.ledger, x.job.target)
    ensures !Clash(s.ledger[i], EntryOf(s.txns[t], newId, s.txns[t].phase.wallet.balance))
  {
    hide Inv;
    var x := s.txns[t];
    if x.job.PostJob? {
      assert !HasKey(s.ledger, x.job.idem, s.ledger[i]);
    } else {
      assert !Reverses(s.ledger, x.job.target, s.ledger[i]);
    }
  }

  lemma NewRowApart(s: State, t: TxId, newId: Id, u: TxId)
    requires Inv(s) && t in s.txns && u in s.txns && t != u && s.txns[t].phase.Applied? && Fresh(s, newId) && !Blocked(s, t)
    ensures var x := s.txns[t];
      Apart(x.(phase := Inserted(x.phase.wallet, EntryOf(x, newId, x.phase.wallet.balance))), s.txns[u])
  {
    HeldApart(s, t, u);
    HeldOk(s, u);
    hide Inv, Booked, PendingOk;
    assert !WaitsFor(s, t, u);
  }

  lemma InsertedOk(s: State, t: TxId, newId: Id)
    requires Inv(s) && t in s.txns && s.txns[t].phase.Applied?
    requires var x := s.txns[t];
      forall i | 0 <= i < |s.ledger| :: !Clash(s.ledger[i], EntryOf(x, newId, x.phase.wallet.balance))
    ensures var x := s.txns[t];
      TxnOk(s, x.(phase := Inserted(x.phase.wallet, EntryOf(x, newId, x.phase.wallet.balance))))
  {
    HeldOk(s, t);
    var x := s.txns[t];
    hide Inv, Booked, Clash, EntryOf;
    EntryIdIs(x, newId, x.phase.wallet.balance);
    PhaseSame(x, x.(phase := Inserted(x.phase.wallet, EntryOf(x, newId, x.phase.wallet.balance))), newId,
      x.phase.wallet.balance);
  }

  lemma InsertsKeeps(s: State, s': State, t: TxId, newId: Id)
    requires Inv(s) && Inserts(s, s', t, newId) && !Blocked(s, t)
    ensures Inv(s')
  {
    hide Inv, Blocked, Fresh, EntryOf, Clash, TxnOk, Apart;
    var x := s.txns[t];
    var e := EntryOf(x, newId, x.phase.wallet.balance);
    if s' == Goes(s, t, Inserted(x.phase.wallet, e)) {
      assert s'.txns[t].phase.Inserted?;
      forall i | 0 <= i < |s.ledger| ensures !Clash(s.ledger[i], e) {
        NewRowClear(s, t, newId, i);
      }
      forall u | u in s.txns && u != t ensures Apart(x.(phase := Inserted(x.phase.wallet, e)), s.txns[u]) {
        NewRowApart(s, t, newId, u);
      }
      InsertedOk(s, t, newId);
      LocalKeeps(s, s', t, x.(phase := Inserted(x.phase.wallet, e)));
    } else {
      EndKeeps(s, s', t, s'.txns[t].phase.result);
    }
  }

  lemma EntryIdIs(x: Txn, newId: Id, balance: int)
    ensures EntryOf(x, newId, balance).id == newId
  {
  }

  lemma PhaseSame(x: Txn, y: Txn, newId: Id, balance: int)
    requires y == x.(phase := y.phase)
    ensures EntryOf(x, newId, balance) == EntryOf(y, newId, balance) && OwnerOf(x) == OwnerOf(y) && DeltaOf(x) == DeltaOf(y)
  {
  }

  /** The pending row may be appended. */
  lemma PendingFits(s: State, t: TxId)
    requires Inv(s) && t in s.txns && s.txns[t].phase.Inserted?
    ensures var x := s.txns[t]; Fitting(s.wallets, s.ledger, x.phase.entry)
    ensures var x := s.txns[t];
      Booking(s.wallets, x.phase.entry) == s.wallets[OwnerOf(x) := x.phase.wallet] && x.phase.entry.owner == OwnerOf(x)
  {
    HeldOk(s, t);
    hide Inv, Booked, Clash;
    var x := s.txns[t];
    var e := x.phase.entry;
    if x.job.ReverseJob? {
      var j :| 0 <= j < |s.ledger| && s.ledger[j] == x.orig.value;
      assert Undoes(s.ledger + [e], |s.ledger|, j);
    }
  }

  lemma RowsApart(s: State, t: TxId, u: TxId, i: nat)
    requires Inv(s) && t in s.txns && u in s.txns && t != u && s.txns[t].phase.Inserted? && s.txns[u].phase.Inserted?
    requires i <= |s.ledger|
    ensures !Clash((s.ledger + [s.txns[t].phase.entry])[i], s.txns[u].phase.entry)
  {
    HeldOk(s, u);
    HeldApart(s, t, u);
    hide Inv, Booked, Clash, PendingOk, EntryOf;
  }

  lemma OtherAfterCommit(s: State, s': State, t: TxId, u: TxId)
    requires Inv(s) && Commits(s, s', t) && u in s.txns && u != t
    ensures TxnOk(s', s'.txns[u])
  {
    HeldOk(s, u);
    HeldApart(s, t, u);
    HeldOk(s, t);
    hide Inv, Booked, Clash, EntryOf;
    var x, y := s.txns[t], s.txns[u];
    assert LocksWallet(x, OwnerOf(x));
    if y.phase.Inserted? {
      forall i: nat | i < |s'.ledger| ensures !Clash(s'.ledger[i], y.phase.entry) {
        RowsApart(s, t, u, i);
      }
    }
  }

  lemma CommitsKeeps(s: State, s': State, t: TxId)
    requires Inv(s) && Commits(s, s', t)
    ensures Inv(s')
  {
    PendingFits(s, t);
    InvParts(s);
    var x := s.txns[t];
    hide Inv, LedgerOk, WalletsOk, Fitting, Booking;
    AppendKeeps(s.wallets, s.ledger, x.phase.entry);
    HeldOk(s, t);
    var x' := s'.txns[t];
    hide TxnOk;
    forall u | u in s'.txns ensures TxnOk(s', s'.txns[u]) {
      if u != t {
        OtherAfterCommit(s, s', t, u);
      } else {
        DoneOk(s, s', x, x');
      }
    }
    forall u | u in s.txns && u != t ensures Apart(x', s.txns[u]) {
      HeldApart(s, t, u);
      DoneApart(x', s.txns[u]);
    }
    hide Apart;
    forall u, v | u in s'.txns && v in s'.txns && u != v ensures Apart(s'.txns[u], s'.txns[v]) {
      if v == t {
        ApartSymmetric(x', s'.txns[u]);
      } else if u != t {
        HeldApart(s, u, v);
      }
    }
    InvFrom(s');
  }

  lemma DoneOk(s: State, s': State, x: Txn, y: Txn)
    requires TxnOk(s, x) && y == x.(phase := y.phase) && y.phase.Done?
    ensures TxnOk(s', y)
  {
  }

  lemma DoneApart(x: Txn, y: Txn)
    requires x.phase.Done?
    ensures Apart(x, y)
  {
  }

  lemma InvParts(s: State)
    requires Inv(s)
    ensures LedgerOk(s.ledger) && WalletsOk(s.wallets, s.ledger) && AllOk(s) && AllApart(s)
  {
  }

  lemma InvFrom(s: State)
    requires LedgerOk(s.ledger) && WalletsOk(s.wallets, s.ledger)
    requires forall u | u in s.txns :: TxnOk(s, s.txns[u])
    requires forall u, v | u in s.txns && v in s.txns && u != v :: Apart(s.txns[u], s.txns[v])
    ensures Inv(s)
  {
  }

  lemma AbortsKeeps(s: State, s': State, t: TxId)
    requires Inv(s) && Aborts(s, s', t)
    ensures Inv(s')
  {
    hide Inv;
    EndKeeps(s, s', t, Err(Internal));
  }

  lemma StepKeeps(s: State, s': State)
    requires Inv(s) && Next(s, s')
    ensures Inv(s')
  {
    hide Inv, Opens, LooksUp, Locates, ChecksReversed, Ensures, Applies, Inserts, Commits, Aborts, Blocked;
    if t, job :| Opens(s, s', t, job) {
      OpensKeeps(s, s', t, job);
    } else if t :| Executes(s, s', t) {
      if LooksUp(s, s', t) {
        LooksUpKeeps(s, s', t);
      } else if Locates(s, s', t) {
        LocatesKeeps(s, s', t);
      } else if ChecksReversed(s, s', t) {
        ChecksReversedKeeps(s, s', t);
      } else if Ensures(s, s', t) {
        EnsuresKeeps(s, s', t);
      } else if Applies(s, s', t) {
        AppliesKeeps(s, s', t);
      } else if newId :| Inserts(s, s', t, newId) {
        InsertsKeeps(s, s', t, newId);
      } else {
        CommitsKeeps(s, s', t);
      }
    } else {
      var t :| Aborts(s, s', t);
      AbortsKeeps(s, s', t);
    }
  }
}
