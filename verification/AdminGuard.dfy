/**
 The last-super-admin guard (internal/admin/repository.go, SetStatus): disables take an
 advisory lock, check, update and commit, interleaved with each other and with everything
 else that may touch level and status.
 */
module AdminGuard {
  import opened Basics

  datatype Level = PlainAdmin | SuperAdmin
  datatype Status = Active | Disabled
  datatype Admin = Admin(level: Level, status: Status)

  type TxId = nat

  /** A disable: waiting for the advisory lock, holding it, past the check, past the update. */
  datatype Phase = Begun | Locked | Passed | Updated
  datatype Txn = Txn(target: Id, phase: Phase)

  /** Committed accounts, the holder of the advisory lock, and the disables in flight. */
  datatype State = State(admins: map<Id, Admin>, guard: Option<TxId>, txns: map<TxId, Txn>)

  predicate ActiveSuper(s: State, id: Id) {
    id in s.admins && s.admins[id] == Admin(SuperAdmin, Active)
  }

  predicate OtherActiveSuper(s: State, id: Id) {
    exists o | o in s.admins :: o != id && ActiveSuper(s, o)
  }

  predicate HasActiveSuper(s: State) {
    exists o | o in s.admins :: ActiveSuper(s, o)
  }

  /** Past the check, so that the disable will go through. */
  predicate Past(s: State, t: TxId) {
    t in s.txns && (s.txns[t].phase.Passed? || s.txns[t].phase.Updated?)
  }

  /** An uncommitted update keeps its row locked. */
  predicate RowLocked(s: State, id: Id) {
    exists t | t in s.txns :: s.txns[t] == Txn(id, Updated)
  }

  // --- Statements ---

  ghost predicate Begins(s: State, s': State, t: TxId, id: Id) {
    t !in s.txns && s' == s.(txns := s.txns[t := Txn(id, Begun)])
  }

  ghost predicate Locks(s: State, s': State, t: TxId) {
    && t in s.txns && s.txns[t].phase.Begun? && s.guard.None?
    && s' == s.(guard := Some(t), txns := s.txns[t := s.txns[t].(phase := Locked)])
  }

  function Ended(s: State, t: TxId): State {
    s.(guard := if s.guard == Some(t) then None else s.guard, txns := s.txns - {t})
  }

  /** NotFound and ErrLastSuperAdmin end the transaction. */
  ghost predicate Checks(s: State, s': State, t: TxId) {
    && t in s.txns && s.txns[t].phase.Locked?
    && var id := s.txns[t].target;
      if id !in s.admins || (ActiveSuper(s, id) && !OtherActiveSuper(s, id)) then s' == Ended(s, t)
      else s' == s.(txns := s.txns[t := s.txns[t].(phase := Passed)])
  }

  ghost predicate Updates(s: State, s': State, t: TxId) {
    && t in s.txns && s.txns[t].phase.Passed? && !RowLocked(s, s.txns[t].target)
    && s' == s.(txns := s.txns[t := s.txns[t].(phase := Updated)])
  }

  ghost predicate Commits(s: State, s': State, t: TxId) {
    && t in s.txns && s.txns[t].phase.Updated?
    && s' == Ended(s, t).(admins := Disable(s.admins, s.txns[t].target))
  }

  function Disable(m: map<Id, Admin>, id: Id): map<Id, Admin> {
    if id in m then m[id := m[id].(status := Disabled)] else m
  }

  ghost predicate Aborts(s: State, s': State, t: TxId) {
    t in s.txns && s' == Ended(s, t)
  }

  /** Enabling, promoting and creating are single statements; accounts are never deleted. */
  ghost predicate Enables(s: State, s': State, id: Id) {
    id in s.admins && !RowLocked(s, id) && s' == s.(admins := s.admins[id := s.admins[id].(status := Active)])
  }

  ghost predicate Promotes(s: State, s': State, id: Id) {
    id in s.admins && !RowLocked(s, id) && s' == s.(admins := s.admins[id := s.admins[id].(level := SuperAdmin)])
  }

  ghost predicate CreatesAdmin(s: State, s': State, id: Id, level: Level) {
    id !in s.admins && s' == s.(admins := s.admins[id := Admin(level, Active)])
  }

  ghost predicate Next(s: State, s': State) {
    || (exists t, id :: Begins(s, s', t, id))
    || (exists t :: Locks(s, s', t) || Checks(s, s', t) || Updates(s, s', t) || Commits(s, s', t) || Aborts(s, s', t))
    || (exists id :: Enables(s, s', id) || Promotes(s, s', id))
    || (exists id, level :: CreatesAdmin(s, s', id, level))
  }

  // --- The guard ---

  /** Whoever is past the lock holds it. */
  ghost predicate GuardHeld(s: State) {
    forall t | t in s.txns && !s.txns[t].phase.Begun? :: s.guard == Some(t)
  }

  /** A disable past its check leaves another active super admin. */
  ghost predicate Covered(s: State) {
    && GuardHeld(s)
    && forall t: TxId | Past(s, t) :: OtherActiveSuper(s, s.txns[t].target)
  }

  /** There is an active super admin, and one that no disable past its check will take away. */
  ghost predicate Safe(s: State) {
    HasActiveSuper(s) && Covered(s)
  }

  lemma OneHolder(s: State, t: TxId, u: TxId)
    requires GuardHeld(s) && t in s.txns && u in s.txns && !s.txns[t].phase.Begun? && !s.txns[u].phase.Begun?
    ensures t == u
  {
  }

  lemma GuardStays(s: State, s': State)
    requires GuardHeld(s) && Next(s, s')
    ensures GuardHeld(s')
  {
    hide HasActiveSuper, OtherActiveSuper, ActiveSuper, RowLocked;
  }

  /** More active super admins than before. */
  lemma NoneLost(s: State, s': State)
    requires Safe(s) && GuardHeld(s')
    requires forall o | ActiveSuper(s, o) :: ActiveSuper(s', o)
    requires forall t: TxId | Past(s', t) :: Past(s, t) && s'.txns[t].target == s.txns[t].target
    ensures Safe(s')
  {
    var o :| o in s.admins && ActiveSuper(s, o);
    assert ActiveSuper(s', o);
    forall t: TxId | Past(s', t) ensures OtherActiveSuper(s', s'.txns[t].target) {
      var p :| p in s.admins && p != s.txns[t].target && ActiveSuper(s, p);
      assert ActiveSuper(s', p);
    }
  }

  lemma ChecksSafe(s: State, s': State, t: TxId)
    requires Safe(s) && GuardHeld(s') && Checks(s, s', t)
    ensures Safe(s')
  {
    var id := s.txns[t].target;
    forall o | ActiveSuper(s, o) ensures ActiveSuper(s', o) { }
    if t in s'.txns {
      var o :| o in s.admins && ActiveSuper(s, o);
      if o == id {
        o :| o in s.admins && o != id && ActiveSuper(s, o);
      }
      assert ActiveSuper(s', o) && o != id;
      assert forall u: TxId | Past(s', u) :: u == t;
    } else {
      NoneLost(s, s');
    }
  }

  lemma CommitsSafe(s: State, s': State, t: TxId)
    requires Safe(s) && GuardHeld(s') && Commits(s, s', t)
    ensures Safe(s')
  {
    assert Past(s, t);
    var o :| o in s.admins && o != s.txns[t].target && ActiveSuper(s, o);
    assert ActiveSuper(s', o);
    forall u: TxId | Past(s, u) ensures u == t {
      OneHolder(s, t, u);
    }
  }

  lemma SafeStays(s: State, s': State)
    requires Safe(s) && Next(s, s')
    ensures Safe(s')
  {
    GuardStays(s, s');
    hide RowLocked;
    if t :| Checks(s, s', t) {
      ChecksSafe(s, s', t);
    } else if t :| Commits(s, s', t) {
      CommitsSafe(s, s', t);
    } else {
      hide HasActiveSuper, OtherActiveSuper, Safe, GuardHeld;
      NoneLost(s, s');
    }
  }

  // --- Over runs ---

  ghost predicate IsRun(run: seq<State>) {
    run != [] && forall i: nat | i + 1 < |run| :: Next(run[i], run[i + 1])
  }

  lemma {:induction false} SafeForever(run: seq<State>, i: nat)
    requires IsRun(run) && i < |run| && Safe(run[0])
    ensures Safe(run[i])
  {
    hide Next, Safe;
    if i == 0 {
    } else {
      SafeForever(run, i - 1);
      assert Next(run[i - 1], run[i - 1 + 1]);
      SafeStays(run[i - 1], run[i]);
    }
  }

  /** From a safe state on there is an active super admin in every state of every run. */
  lemma ActiveSuperForever(run: seq<State>, i: nat)
    requires IsRun(run) && i < |run| && Safe(run[0])
    ensures HasActiveSuper(run[i])
  {
    SafeForever(run, i);
    hide IsRun, HasActiveSuper, OtherActiveSuper, GuardHeld;
  }

  /** With no disable past its check, one active super admin is enough to be safe. */
  lemma SafeWhenQuiet(s: State)
    requires GuardHeld(s) && HasActiveSuper(s) && forall t | t in s.txns :: !Past(s, t)
    ensures Safe(s)
  {
  }

  /** The run in which a disable that is past its check takes its target away. */
  lemma TakenAway(s: State, t: TxId) returns (run: seq<State>)
    requires GuardHeld(s) && Past(s, t) && s.txns[t].target in s.admins && !OtherActiveSuper(s, s.txns[t].target)
    ensures IsRun(run) && run[0] == s && !HasActiveSuper(run[|run| - 1])
  {
    var id := s.txns[t].target;
    var mid := s.(txns := s.txns[t := Txn(id, Updated)]);
    var end := Ended(mid, t).(admins := Disable(s.admins, id));
    assert Commits(mid, end, t);
    assert Next(mid, end);
    if s.txns[t].phase.Updated? {
      assert mid == s;
      run := [s, end];
    } else {
      forall u | u in s.txns && !s.txns[u].phase.Begun? ensures u == t {
        OneHolder(s, t, u);
      }
      assert !RowLocked(s, id);
      assert Updates(s, mid, t);
      assert Next(s, mid);
      run := [s, mid, end];
    }
    forall o | o in end.admins ensures !ActiveSuper(end, o) {
      assert o != id ==> !ActiveSuper(s, o);
    }
  }

  /** Every run from s keeps an active super admin. */
  ghost predicate Guarded(s: State) {
    forall run | IsRun(run) && run[0] == s :: HasActiveSuper(run[|run| - 1])
  }

  /** Accounts a disable is past its check for exist. */
  ghost predicate TargetsExist(s: State) {
    forall t: TxId | Past(s, t) :: s.txns[t].target in s.admins
  }

  /**
   When the guarantee holds: one active super admin stays for good exactly when no disable that
   is already past its check is aimed at the only one there is.
   */
  lemma GuardExact(s: State)
    requires GuardHeld(s) && TargetsExist(s)
    ensures Guarded(s) <==> Safe(s)
  {
    hide Next;
    if Safe(s) {
      forall run | IsRun(run) && run[0] == s ensures HasActiveSuper(run[|run| - 1]) {
        ActiveSuperForever(run, |run| - 1);
      }
    }
    if Guarded(s) {
      var still := [s];
      assert IsRun(still) && still[0] == s;
      assert HasActiveSuper(still[|still| - 1]);
      forall t: TxId | Past(s, t) ensures OtherActiveSuper(s, s.txns[t].target) {
        if !OtherActiveSuper(s, s.txns[t].target) {
          var run := TakenAway(s, t);
        }
      }
    }
  }

  lemma TargetsStay(s: State, s': State)
    requires TargetsExist(s) && Next(s, s')
    ensures TargetsExist(s')
  {
    hide RowLocked, OtherActiveSuper, ActiveSuper;
  }

  /** From a state with nothing in flight, the side conditions of GuardExact hold in every run. */
  lemma {:induction false} AlwaysHeld(run: seq<State>, i: nat)
    requires IsRun(run) && i < |run| && run[0].txns == map[]
    ensures GuardHeld(run[i]) && TargetsExist(run[i])
  {
    if i == 0 {
    } else {
      hide Next, GuardHeld, TargetsExist;
      AlwaysHeld(run, i - 1);
      assert Next(run[i - 1], run[i - 1 + 1]);
      GuardStays(run[i - 1], run[i]);
      TargetsStay(run[i - 1], run[i]);
    }
  }

  /** The guard refuses no more than it must: a known account that is not the only active super admin passes. */
  lemma RefusesOnlyTheLast(s: State, s': State, t: TxId)
    requires Checks(s, s', t)
    ensures var id, last := s.txns[t].target, Admin(SuperAdmin, Active);
      Past(s', t) <==>
        id in s.admins && !(s.admins[id] == last && forall o | o in s.admins && s.admins[o] == last :: o == id)
  {
    hide RowLocked;
  }

  // --- Runs from a quiet start ---

  predicate Quiet(s: State) {
    s.txns == map[]
  }

  /** A disable that passes its check in this step does so while there is an active super admin. */
  ghost predicate Sees(s: State, s': State) {
    forall t: TxId | Checks(s, s', t) && Past(s', t) :: HasActiveSuper(s)
  }

  lemma CoveredStays(s: State, s': State)
    requires Covered(s) && Next(s, s') && Sees(s, s')
    ensures Covered(s') && (HasActiveSuper(s) ==> HasActiveSuper(s'))
  {
    if HasActiveSuper(s) {
      SafeStays(s, s');
    } else {
      GuardStays(s, s');
      forall t: TxId ensures !Past(s', t) {
        NonePasses(s, s', t);
      }
    }
  }

  lemma NonePasses(s: State, s': State, t: TxId)
    requires Covered(s) && Next(s, s') && Sees(s, s') && !HasActiveSuper(s)
    ensures !Past(s', t)
  {
    assert !Past(s, t);
    hide HasActiveSuper, OtherActiveSuper, ActiveSuper, RowLocked, GuardHeld;
  }

  ghost predicate AllSee(run: seq<State>) {
    forall i: nat | i + 1 < |run| :: Sees(run[i], run[i + 1])
  }

  lemma {:induction false} AlwaysCovered(run: seq<State>, i: nat, k: nat)
    requires IsRun(run) && AllSee(run) && Quiet(run[0]) && i <= k < |run|
    ensures Covered(run[k]) && (HasActiveSuper(run[i]) ==> HasActiveSuper(run[k]))
  {
    hide Next, Sees, HasActiveSuper, OtherActiveSuper;
    if k == 0 {
      assert Covered(run[0]);
    } else {
      AlwaysCovered(run, if i < k then i else 0, k - 1);
      assert Next(run[k - 1], run[k - 1 + 1]) && Sees(run[k - 1], run[k - 1 + 1]);
      CoveredStays(run[k - 1], run[k]);
    }
  }

  /**
   Disables that pass their check while there is an active super admin never take the last one
   away: once there is one, there always is.
   */
  lemma KeptWhenSeen(run: seq<State>, i: nat, k: nat)
    requires IsRun(run) && AllSee(run) && Quiet(run[0]) && i <= k < |run| && HasActiveSuper(run[i])
    ensures HasActiveSuper(run[k])
  {
    AlwaysCovered(run, i, k);
  }

  /** And only those: a disable that passes unseen can go on to take the last one away. */
  lemma LostWhenUnseen(s: State, s': State, t: TxId) returns (run: seq<State>)
    requires GuardHeld(s) && Checks(s, s', t) && Past(s', t) && !HasActiveSuper(s)
    ensures IsRun(run) && run[0] == s' && |run| > 2 && HasActiveSuper(run[2]) && !HasActiveSuper(run[|run| - 1])
  {
    var id := s.txns[t].target;
    var s1 := s'.(admins := s'.admins[id := s'.admins[id].(status := Active)]);
    var s2 := s1.(admins := s1.admins[id := s1.admins[id].(level := SuperAdmin)]);
    forall u | u in s'.txns && !s'.txns[u].phase.Begun? ensures u == t {
      if u != t {
        OneHolder(s, t, u);
      }
    }
    assert Enables(s', s1, id) && Promotes(s1, s2, id);
    assert Next(s', s1) && Next(s1, s2);
    forall o | o in s2.admins && o != id ensures !ActiveSuper(s2, o) {
      assert !ActiveSuper(s, o);
    }
    assert ActiveSuper(s2, id);
    var rest := TakenAway(s2, t);
    run := [s', s1] + rest;
    hide Next;
    forall i: nat | i + 1 < |run| ensures Next(run[i], run[i + 1]) {
      if i > 1 {
        assert Next(rest[i - 2], rest[i - 2 + 1]);
      }
    }
  }

  // --- Runs of the back office ---

  ghost predicate BeginsDisable(s: State, s': State) {
    exists t, id :: Begins(s, s', t, id)
  }

  ghost predicate SeenBy(run: seq<State>, i: nat)
    requires i < |run|
  {
    exists j: nat | j <= i :: HasActiveSuper(run[j])
  }

  /**
   Disables are requested with a super admin's token, which only an active super admin is
   ever given, at that time or earlier.
   */
  ghost predicate Authorised(run: seq<State>) {
    forall i: nat | i + 1 < |run| && BeginsDisable(run[i], run[i + 1]) :: SeenBy(run, i)
  }

  lemma QuietStays(s: State, s': State)
    requires Quiet(s) && Next(s, s') && !BeginsDisable(s, s')
    ensures Quiet(s') && Covered(s')
  {
    hide HasActiveSuper, OtherActiveSuper, ActiveSuper, RowLocked;
    if t, id :| Begins(s, s', t, id) {
      assert false;
    }
  }

  lemma {:induction false} SafeOnceSeen(run: seq<State>, i: nat)
    requires IsRun(run) && Authorised(run) && Quiet(run[0]) && i < |run|
    ensures if SeenBy(run, i) then Safe(run[i]) else Quiet(run[i])
  {
    hide Next, HasActiveSuper, BeginsDisable, GuardHeld;
    if i == 0 {
      if SeenBy(run, 0) {
        SafeWhenQuiet(run[0]);
      }
    } else {
      SafeOnceSeen(run, i - 1);
      assert Next(run[i - 1], run[i - 1 + 1]);
      if SeenBy(run, i - 1) {
        SafeStays(run[i - 1], run[i]);
      } else {
        QuietStays(run[i - 1], run[i]);
      }
    }
  }

  /**
   The guarantee as the back office gives it, whatever accounts it starts with: once there is an
   active super admin there is one in every later state, however disables, enables, promotions
   and creations interleave.
   */
  lemma LastSuperAdminStays(run: seq<State>, i: nat, k: nat)
    requires IsRun(run) && Authorised(run) && Quiet(run[0]) && i <= k < |run| && HasActiveSuper(run[i])
    ensures HasActiveSuper(run[k])
  {
    assert SeenBy(run, k);
    SafeOnceSeen(run, k);
    hide IsRun, HasActiveSuper;
  }

  /**
   The check alone does not give it: a disable of a plain admin passes when nobody is an active
   super admin, the account is then promoted, and the disable takes the only one away.
   */
  lemma PromotedThenDisabled(a: Id) returns (run: seq<State>)
    ensures IsRun(run) && |run| == 7 && run[0] == State(map[a := Admin(PlainAdmin, Active)], None, map[])
    ensures HasActiveSuper(run[4]) && !HasActiveSuper(run[6])
  {
    var plain, super := Admin(PlainAdmin, Active), Admin(SuperAdmin, Active);
    var m, n := map[a := plain], map[a := super];
    var s0 := State(m, None, map[]);
    var s1 := State(m, None, map[0 := Txn(a, Begun)]);
    var s2 := State(m, Some(0), map[0 := Txn(a, Locked)]);
    var s3 := State(m, Some(0), map[0 := Txn(a, Passed)]);
    var s4 := State(n, Some(0), map[0 := Txn(a, Passed)]);
    var s5 := State(n, Some(0), map[0 := Txn(a, Updated)]);
    var s6 := State(map[a := Admin(SuperAdmin, Disabled)], None, map[]);
    assert s1.txns == s0.txns[0 := Txn(a, Begun)];
    assert Begins(s0, s1, 0, a);
    assert s2.txns == s1.txns[0 := Txn(a, Locked)];
    assert Locks(s1, s2, 0);
    assert s3.txns == s2.txns[0 := Txn(a, Passed)];
    assert Checks(s2, s3, 0);
    assert !RowLocked(s3, a) && s4.admins == s3.admins[a := super];
    assert Promotes(s3, s4, a);
    assert !RowLocked(s4, a) && s5.txns == s4.txns[0 := Txn(a, Updated)];
    assert Updates(s4, s5, 0);
    assert s6 == Ended(s5, 0).(admins := Disable(s5.admins, a));
    assert Commits(s5, s6, 0);
    run := [s0, s1, s2, s3, s4, s5, s6];
    assert ActiveSuper(s4, a);
  }
}
