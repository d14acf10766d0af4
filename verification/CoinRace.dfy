/** Two posts with one key, and why the loser may see an error: its wallet change comes before its key. */
module CoinRace {
  import opened Basics
  import opened CoinModel
  import opened CoinLedger
  import opened CoinMachine
  import opened CoinRuns

  /** Holds no lock that anybody could wait for. */
  predicate Lockless(x: Txn) {
    x.job.PostJob? && (x.phase.Started? || x.phase.Cleared? || x.phase == Ensured(false) || x.phase.Done?)
  }

  /** Nobody but t holds a lock. */
  ghost predicate Alone(s: State, t: TxId) {
    t in s.txns && s.txns[t].job.PostJob? && forall u | u in s.txns && u != t :: Lockless(s.txns[u])
  }

  lemma AloneRuns(s: State, t: TxId)
    requires Alone(s, t)
    ensures !Blocked(s, t)
  {
    forall u ensures !WaitsFor(s, t, u) {
      assert u in s.txns && u != t ==> Lockless(s.txns[u]);
    }
  }

  // One statement each, with nobody in the way.

  lemma Opening(s: State, t: TxId, job: Job)
    requires t !in s.txns && job.PostJob? && Booked(job.biz, job.amount)
    ensures Next(s, s.(txns := s.txns[t := Txn(job, None, Started)]))
  {
    assert Opens(s, s.(txns := s.txns[t := Txn(job, None, Started)]), t, job);
  }

  lemma Looking(s: State, t: TxId)
    requires Alone(s, t) && s.txns[t].phase.Started? && !Known(s.ledger, s.txns[t].job.idem)
    ensures Next(s, Goes(s, t, Cleared))
  {
    AloneRuns(s, t);
    hide Blocked, Known;
    assert LooksUp(s, Goes(s, t, Cleared), t);
    assert Executes(s, Goes(s, t, Cleared), t);
  }

  lemma Ensuring(s: State, t: TxId, p: Phase)
    requires Alone(s, t) && s.txns[t].phase.Cleared? && p == Ensured(OwnerOf(s.txns[t]) !in s.wallets)
    ensures Next(s, Goes(s, t, p))
  {
    var after := Goes(s, t, p);
    AloneRuns(s, t);
    hide Blocked;
    assert Ensures(s, after, t);
    assert Executes(s, after, t);
  }

  lemma Applying(s: State, t: TxId, p: Phase)
    requires Alone(s, t) && s.txns[t].phase.Ensured?
    requires AppliedWallet(s, s.txns[t]).balance <= MAX64 && AppliedWallet(s, s.txns[t]).version <= MAX64
    requires var w := AppliedWallet(s, s.txns[t]);
      p == if w.balance < 0 then Done(Err(InsufficientBalance)) else Applied(w)
    ensures Next(s, Goes(s, t, p))
  {
    var after := Goes(s, t, p);
    AloneRuns(s, t);
    hide Blocked;
    assert Applies(s, after, t);
    assert Executes(s, after, t);
  }

  lemma Inserting(s: State, t: TxId, newId: Id)
    requires Alone(s, t) && s.txns[t].phase.Applied? && !Known(s.ledger, s.txns[t].job.idem) && Fresh(s, newId)
    ensures var w := s.txns[t].phase.wallet;
      Next(s, Goes(s, t, Inserted(w, EntryOf(s.txns[t], newId, w.balance))))
  {
    var w := s.txns[t].phase.wallet;
    var after := Goes(s, t, Inserted(w, EntryOf(s.txns[t], newId, w.balance)));
    AloneRuns(s, t);
    hide Blocked, Known, Fresh;
    assert Inserts(s, after, t, newId);
    assert Executes(s, after, t);
  }

  function Committed(s: State, t: TxId): State
    requires t in s.txns && s.txns[t].phase.Inserted?
  {
    var x := s.txns[t];
    State(s.wallets[OwnerOf(x) := x.phase.wallet], s.ledger + [x.phase.entry],
      s.txns[t := x.(phase := Done(Ok(x.phase.entry)))])
  }

  lemma Committing(s: State, t: TxId)
    requires Alone(s, t) && s.txns[t].phase.Inserted?
    ensures Next(s, Committed(s, t))
  {
    AloneRuns(s, t);
    hide Blocked;
    assert Commits(s, Committed(s, t), t);
    assert Executes(s, Committed(s, t), t);
  }

  // --- The run ---

  const HOLDER := Owner(Web, 1)
  const GRANT := PostJob(HOLDER, 5, PlatformGrant, "", None, None)
  const TIP := PostJob(HOLDER, -5, GiveTip, "", None, Some("key"))
  const GRANTED := Entry(1, HOLDER, 5, 5, PlatformGrant, "", None, None, None)
  const TIPPED := Entry(2, HOLDER, -5, 0, GiveTip, "", None, Some("key"), None)

  function Posting(job: Job, p: Phase): Txn {
    Txn(job, None, p)
  }

  /** A holder is granted five coins. */
  lemma Funded() returns (run: seq<State>)
    ensures IsRun(run) && |run| == 7
    ensures run[6] == State(map[HOLDER := Wallet(5, 1)], [GRANTED], map[0 := Posting(GRANT, Done(Ok(GRANTED)))])
  {
    hide Next;
    var s0 := State(map[], [], map[]);
    var s1 := State(map[], [], map[0 := Posting(GRANT, Started)]);
    var s2 := State(map[], [], map[0 := Posting(GRANT, Cleared)]);
    var s3 := State(map[], [], map[0 := Posting(GRANT, Ensured(true))]);
    var s4 := State(map[], [], map[0 := Posting(GRANT, Applied(Wallet(5, 1)))]);
    var s5 := State(map[], [], map[0 := Posting(GRANT, Inserted(Wallet(5, 1), GRANTED))]);
    var s6 := State(map[HOLDER := Wallet(5, 1)], [GRANTED], map[0 := Posting(GRANT, Done(Ok(GRANTED)))]);
    Opening(s0, 0, GRANT);
    assert s0.txns[0 := Posting(GRANT, Started)] == s1.txns;
    Looking(s1, 0);
    assert Goes(s1, 0, Cleared) == s2;
    Ensuring(s2, 0, Ensured(true));
    assert Goes(s2, 0, Ensured(true)) == s3;
    Applying(s3, 0, Applied(Wallet(5, 1)));
    assert Goes(s3, 0, Applied(Wallet(5, 1))) == s4;
    Inserting(s4, 0, 1);
    assert Goes(s4, 0, Inserted(Wallet(5, 1), GRANTED)) == s5;
    Committing(s5, 0);
    assert Committed(s5, 0) == s6;
    run := [s0, s1, s2, s3, s4, s5, s6];
  }

  ghost predicate IsPath(run: seq<State>) {
    forall i: nat | i + 1 < |run| :: Next(run[i], run[i + 1])
  }

  /** The state of the race, with the two posts at the given phases. */
  function Racing(p: Phase, q: Phase): State {
    State(map[HOLDER := Wallet(5, 1)], [GRANTED],
      map[0 := Posting(GRANT, Done(Ok(GRANTED))), 1 := Posting(TIP, p), 2 := Posting(TIP, q)])
  }

  /** Both posts get past their lookup, and see the wallet row. */
  lemma BothCleared() returns (run: seq<State>)
    ensures |run| == 6 && run[5] == Racing(Ensured(false), Ensured(false))
    ensures run[0].txns == map[0 := Posting(GRANT, Done(Ok(GRANTED))), 1 := Posting(TIP, Started)]
    ensures run[0].wallets == map[HOLDER := Wallet(5, 1)] && run[0].ledger == [GRANTED]
    ensures IsPath(run)
  {
    hide Next;
    var s0 := State(map[HOLDER := Wallet(5, 1)], [GRANTED],
      map[0 := Posting(GRANT, Done(Ok(GRANTED))), 1 := Posting(TIP, Started)]);
    var s1, s2, s3 := Racing(Started, Started), Racing(Cleared, Started), Racing(Cleared, Cleared);
    var s4, s5 := Racing(Ensured(false), Cleared), Racing(Ensured(false), Ensured(false));
    Opening(s0, 2, TIP);
    assert s0.txns[2 := Posting(TIP, Started)] == s1.txns;
    Looking(s1, 1);
    assert Goes(s1, 1, Cleared) == s2;
    Looking(s2, 2);
    assert Goes(s2, 2, Cleared) == s3;
    Ensuring(s3, 1, Ensured(false));
    assert Goes(s3, 1, Ensured(false)) == s4;
    Ensuring(s4, 2, Ensured(false));
    assert Goes(s4, 2, Ensured(false)) == s5;
    run := [s0, s1, s2, s3, s4, s5];
  }

  lemma Joined(a: seq<State>, b: seq<State>)
    requires IsPath(a) && IsPath(b) && a != [] && b != [] && Next(a[|a| - 1], b[0])
    ensures IsPath(a + b)
  {
    hide Next;
    forall i: nat | i + 1 < |a + b| ensures Next((a + b)[i], (a + b)[i + 1]) {
      if i + 1 < |a| {
        assert Next(a[i], a[i + 1]);
      } else if i >= |a| {
        assert Next(b[i - |a|], b[i - |a| + 1]);
      }
    }
  }

  /** One books ... */
  lemma OneBooks() returns (run: seq<State>)
    ensures |run| == 4 && run[0] == Racing(Ensured(false), Ensured(false)) && IsPath(run)
    ensures run[3] == Lost(Ensured(false))
  {
    hide Next;
    var left := Wallet(0, 2);
    var s0, s1 := Racing(Ensured(false), Ensured(false)), Racing(Applied(left), Ensured(false));
    var s2 := Racing(Inserted(left, TIPPED), Ensured(false));
    Applying(s0, 1, Applied(left));
    assert Goes(s0, 1, Applied(left)) == s1;
    Inserting(s1, 1, 2);
    assert Goes(s1, 1, Inserted(left, TIPPED)) == s2;
    Committing(s2, 1);
    assert Committed(s2, 1) == Lost(Ensured(false));
    run := [s0, s1, s2, Lost(Ensured(false))];
  }

  /** The second post at phase q, the first one booked. */
  function Lost(q: Phase): State {
    State(map[HOLDER := Wallet(0, 2)], [GRANTED, TIPPED],
      map[0 := Posting(GRANT, Done(Ok(GRANTED))), 1 := Posting(TIP, Done(Ok(TIPPED))), 2 := Posting(TIP, q)])
  }

  /** ... and the other finds the wallet empty. */
  lemma OtherFails()
    ensures Next(Lost(Ensured(false)), Lost(Done(Err(InsufficientBalance))))
  {
    var s := Lost(Ensured(false));
    Applying(s, 2, Done(Err(InsufficientBalance)));
    assert Goes(s, 2, Done(Err(InsufficientBalance))) == Lost(Done(Err(InsufficientBalance)));
  }

  /**
   The run in which a booked key does not help the loser of a race: its post, identical to the one
   that is booked, ends with ErrInsufficientBalance.
   */
  lemma LoserRefused() returns (run: seq<State>)
    ensures IsRun(run) && |run| == 17
    ensures run[15] == Lost(Ensured(false)) && HasKey(run[15].ledger, TIP.idem, TIPPED)
    ensures run[16] == Lost(Done(Err(InsufficientBalance)))
  {
    hide Next;
    var a := Funded();
    var b := BothCleared();
    var c := OneBooks();
    OtherFails();
    Opening(a[6], 1, TIP);
    assert a[6].txns[1 := Posting(TIP, Started)] == b[0].txns;
    Joined(a, b);
    assert IsPath(c[1..]) && Next(b[5], c[1..][0]) by {
      assert Next(c[0], c[0 + 1]);
      forall i: nat | i + 1 < |c[1..]| ensures Next(c[1..][i], c[1..][i + 1]) {
        assert Next(c[i + 1], c[i + 1 + 1]);
      }
    }
    Joined(a + b, c[1..]);
    var last := [Lost(Done(Err(InsufficientBalance)))];
    Joined(a + b + c[1..], last);
    run := a + b + c[1..] + last;
  }
}
