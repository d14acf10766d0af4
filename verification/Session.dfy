/**
 Refresh tokens (internal/session/service.go, repository.go): single-device login, rotation and
 revocation, over every sequential run. Raw tokens are fresh and hash is injective.
 */
module Session {
  import opened Basics

  type Hash = string

  datatype Token = Token(user: Id, hash: Hash, expires: int, revoked: bool)

  ghost predicate Injective(hash: string -> Hash) {
    forall a, b | hash(a) == hash(b) :: a == b
  }

  predicate HashUsed(ts: seq<Token>, h: Hash) {
    exists i | 0 <= i < |ts| :: ts[i].hash == h
  }

  /** FindByHash; hashes are unique. */
  function Find(ts: seq<Token>, h: Hash): (r: Option<nat>)
    ensures r.Some? ==> r.value < |ts| && ts[r.value].hash == h
    ensures r.None? ==> !HashUsed(ts, h)
  {
    if ts == [] then None
    else if ts[|ts| - 1].hash == h then Some(|ts| - 1)
    else
      var init := ts[..|ts| - 1];
      assert forall i | 0 <= i < |init| :: init[i] == ts[i];
      Find(init, h)
  }

  function RevokedAt(ts: seq<Token>, i: nat): seq<Token>
    requires i < |ts|
  {
    ts[i := ts[i].(revoked := true)]
  }

  function RevokedFor(ts: seq<Token>, user: Id): (r: seq<Token>)
    ensures |r| == |ts| && forall i | 0 <= i < |ts| :: r[i] == if ts[i].user == user then ts[i].(revoked := true) else ts[i]
  {
    seq(|ts|, i requires 0 <= i < |ts| => if ts[i].user == user then ts[i].(revoked := true) else ts[i])
  }

  /** A token works while it is known, not revoked and not expired. */
  predicate Works(ts: seq<Token>, h: Hash, now: int) {
    Find(ts, h).Some? && !ts[Find(ts, h).value].revoked && now <= ts[Find(ts, h).value].expires
  }

  predicate HashesUnique(ts: seq<Token>) {
    forall i, j | 0 <= i < j < |ts| :: ts[i].hash != ts[j].hash
  }

  /** Row i can be traded in: it has the hash, is not revoked, and has not expired. */
  predicate Redeemable(ts: seq<Token>, h: Hash, now: int, i: nat) {
    i < |ts| && ts[i].hash == h && !ts[i].revoked && now <= ts[i].expires
  }

  lemma RedeemsOne(ts: seq<Token>, h: Hash, now: int)
    requires HashesUnique(ts)
    ensures Works(ts, h, now) <==> exists i: nat :: Redeemable(ts, h, now, i)
    ensures forall i: nat | Redeemable(ts, h, now, i) :: Find(ts, h) == Some(i)
  {
    hide Find;
    if Works(ts, h, now) {
      assert Redeemable(ts, h, now, Find(ts, h).value);
    }
    forall i: nat | Redeemable(ts, h, now, i) ensures Find(ts, h) == Some(i) {
      assert HashUsed(ts, h);
    }
  }

  // --- The service ---

  class Service {
    const ttl: nat
    const hash: string -> Hash
    var tokens: seq<Token>

    /** The unique index on token_hash. */
    predicate Valid()
      reads this
    {
      HashesUnique(tokens)
    }

    constructor (ttl: nat, hash: string -> Hash)
      ensures Valid() && this.ttl == ttl && this.hash == hash && tokens == []
    {
      this.ttl, this.hash := ttl, hash;
      this.tokens := [];
    }

    method RevokeAll(user: Id)
      modifies this
      ensures tokens == RevokedFor(old(tokens), user)
    {
      for i := 0 to |tokens|
        invariant |tokens| == |old(tokens)|
        invariant forall k | 0 <= k < i :: tokens[k] == RevokedFor(old(tokens), user)[k]
        invariant forall k | i <= k < |tokens| :: tokens[k] == old(tokens)[k]
      {
        if tokens[i].user == user && !tokens[i].revoked {
          tokens := tokens[i := tokens[i].(revoked := true)];
        }
      }
    }

    method Append(user: Id, raw: string, now: int)
      modifies this
      ensures tokens == old(tokens) + [Token(user, hash(raw), now + ttl, false)]
    {
      tokens := tokens + [Token(user, hash(raw), now + ttl, false)];
    }

    /** A login kicks every other device off first. */
    method Issue(user: Id, raw: string, now: int)
      requires Valid() && !HashUsed(tokens, hash(raw))
      modifies this
      ensures Valid()
      ensures |tokens| == |old(tokens)| + 1 && tokens[|old(tokens)|] == Token(user, hash(raw), now + ttl, false)
      ensures forall i | 0 <= i < |old(tokens)| ::
        tokens[i] == if old(tokens)[i].user == user then old(tokens)[i].(revoked := true) else old(tokens)[i]
    {
      RevokeAll(user);
      Append(user, raw, now);
    }

    /** Trades a working token for a new one of the same user. */
    method Rotate(raw: string, newRaw: string, now: int) returns (user: Option<Id>)
      requires Valid() && !HashUsed(tokens, hash(newRaw))
      modifies this
      ensures Valid()
      ensures user.Some? <==> exists i: nat :: Redeemable(old(tokens), hash(raw), now, i)
      ensures forall i: nat | Redeemable(old(tokens), hash(raw), now, i) ::
        && user == Some(old(tokens)[i].user)
        && tokens == old(tokens)[i := old(tokens)[i].(revoked := true)]
          + [Token(old(tokens)[i].user, hash(newRaw), now + ttl, false)]
      ensures user.None? ==> tokens == old(tokens)
    {
      RedeemsOne(tokens, hash(raw), now);
      var found := Find(tokens, hash(raw));
      if found.None? {
        return None;
      }
      var t := tokens[found.value];
      if t.revoked || now > t.expires {
        return None;
      }
      tokens := RevokedAt(tokens, found.value);
      Append(t.user, newRaw, now);
      return Some(t.user);
    }

    method Revoke(raw: string)
      requires Valid()
      modifies this
      ensures Valid()
      ensures forall i: nat | i < |old(tokens)| && old(tokens)[i].hash == hash(raw) ::
        tokens == old(tokens)[i := old(tokens)[i].(revoked := true)]
      ensures !HashUsed(old(tokens), hash(raw)) ==> tokens == old(tokens)
    {
      var found := Find(tokens, hash(raw));
      if found.Some? {
        tokens := RevokedAt(tokens, found.value);
      }
    }
  }

  // --- Runs ---

  /** What was handed out and when: at login, or in exchange for an earlier token. */
  datatype Grant = Login(user: Id, raw: string, at: int) | Exchange(user: Id, raw: string, at: int, spent: string)

  datatype State = State(tokens: seq<Token>, grants: seq<Grant>)

  ghost predicate Issues(ttl: nat, hash: string -> Hash, s: State, s': State, user: Id, raw: string, now: int) {
    && !HashUsed(s.tokens, hash(raw))
    && s' == State(RevokedFor(s.tokens, user) + [Token(user, hash(raw), now + ttl, false)], s.grants + [Login(user, raw, now)])
  }

  ghost predicate Rotates(ttl: nat, hash: string -> Hash, s: State, s': State, raw: string, newRaw: string, now: int) {
    && !HashUsed(s.tokens, hash(newRaw)) && Works(s.tokens, hash(raw), now)
    && var i := Find(s.tokens, hash(raw)).value;
      var user := s.tokens[i].user;
      s' == State(RevokedAt(s.tokens, i) + [Token(user, hash(newRaw), now + ttl, false)],
        s.grants + [Exchange(user, newRaw, now, raw)])
  }

  ghost predicate Revokes(hash: string -> Hash, s: State, s': State, raw: string) {
    Find(s.tokens, hash(raw)).Some? && s' == s.(tokens := RevokedAt(s.tokens, Find(s.tokens, hash(raw)).value))
  }

  ghost predicate RevokesAll(s: State, s': State, user: Id) {
    s' == s.(tokens := RevokedFor(s.tokens, user))
  }

  ghost predicate Next(ttl: nat, hash: string -> Hash, s: State, s': State) {
    || (exists user, raw, now :: Issues(ttl, hash, s, s', user, raw, now))
    || (exists raw, newRaw, now :: Rotates(ttl, hash, s, s', raw, newRaw, now))
    || (exists raw :: Revokes(hash, s, s', raw))
    || (exists user :: RevokesAll(s, s', user))
  }

  ghost predicate IsRun(ttl: nat, hash: string -> Hash, run: seq<State>) {
    && run != [] && run[0] == State([], [])
    && forall k: nat | k + 1 < |run| :: Next(ttl, hash, run[k], run[k + 1])
  }

  // --- The invariant ---

  predicate OneEach(ts: seq<Token>) {
    forall i, j | 0 <= i < j < |ts| && !ts[i].revoked && !ts[j].revoked :: ts[i].user != ts[j].user
  }

  /** Grants and token rows go together, one for one. */
  predicate Granted(ttl: nat, hash: string -> Hash, s: State) {
    |s.grants| == |s.tokens| && forall i | 0 <= i < |s.tokens| ::
      && s.tokens[i].user == s.grants[i].user && s.tokens[i].hash == hash(s.grants[i].raw)
      && s.tokens[i].expires == s.grants[i].at + ttl
  }

  /** An exchange gives its user what an earlier grant gave the same user. */
  predicate Linked(gs: seq<Grant>, i: int, j: int) {
    0 <= j < i < |gs| && gs[i].Exchange? && gs[j].raw == gs[i].spent && gs[j].user == gs[i].user
  }

  ghost predicate AllLinked(gs: seq<Grant>) {
    forall i | 0 <= i < |gs| && gs[i].Exchange? :: exists j :: Linked(gs, i, j)
  }

  ghost predicate Inv(ttl: nat, hash: string -> Hash, s: State) {
    OneEach(s.tokens) && HashesUnique(s.tokens) && Granted(ttl, hash, s) && AllLinked(s.grants)
  }

  lemma LinkedAppend(gs: seq<Grant>, g: Grant)
    requires AllLinked(gs) && (g.Exchange? ==> exists j | 0 <= j < |gs| :: gs[j].raw == g.spent && gs[j].user == g.user)
    ensures AllLinked(gs + [g])
  {
    var hs := gs + [g];
    forall i | 0 <= i < |hs| && hs[i].Exchange? ensures exists j :: Linked(hs, i, j) {
      if i < |gs| {
        var j :| Linked(gs, i, j);
        assert Linked(hs, i, j);
      } else {
        var j :| 0 <= j < |gs| && gs[j].raw == g.spent && gs[j].user == g.user;
        assert Linked(hs, i, j);
      }
    }
  }

  lemma IssuesKeeps(ttl: nat, hash: string -> Hash, s: State, s': State, user: Id, raw: string, now: int)
    requires Inv(ttl, hash, s) && Issues(ttl, hash, s, s', user, raw, now)
    ensures Inv(ttl, hash, s')
  {
    LinkedAppend(s.grants, Login(user, raw, now));
    hide AllLinked;
  }

  lemma RotatesKeeps(ttl: nat, hash: string -> Hash, s: State, s': State, raw: string, newRaw: string, now: int)
    requires Injective(hash) && Inv(ttl, hash, s) && Rotates(ttl, hash, s, s', raw, newRaw, now)
    ensures Inv(ttl, hash, s')
  {
    var i := Find(s.tokens, hash(raw)).value;
    assert s.grants[i].raw == raw;
    LinkedAppend(s.grants, Exchange(s.tokens[i].user, newRaw, now, raw));
    hide AllLinked, Injective, Find;
  }

  lemma StepKeeps(ttl: nat, hash: string -> Hash, s: State, s': State)
    requires Injective(hash) && Inv(ttl, hash, s) && Next(ttl, hash, s, s')
    ensures Inv(ttl, hash, s')
  {
    hide Injective, AllLinked, Find;
    if user, raw, now :| Issues(ttl, hash, s, s', user, raw, now) {
      hide Inv, Issues;
      IssuesKeeps(ttl, hash, s, s', user, raw, now);
    } else if raw, newRaw, now :| Rotates(ttl, hash, s, s', raw, newRaw, now) {
      hide Inv, Rotates;
      RotatesKeeps(ttl, hash, s, s', raw, newRaw, now);
    }
  }

  lemma {:induction false} Reachable(ttl: nat, hash: string -> Hash, run: seq<State>, k: nat)
    requires Injective(hash) && IsRun(ttl, hash, run) && k < |run|
    ensures Inv(ttl, hash, run[k])
  {
    if k == 0 {
    } else {
      hide Inv, Next, Injective;
      Reachable(ttl, hash, run, k - 1);
      assert Next(ttl, hash, run[k - 1], run[k - 1 + 1]);
      StepKeeps(ttl, hash, run[k - 1], run[k]);
    }
  }

  // --- What holds in every run ---

  /** A user never has two tokens that are not revoked. */
  lemma SingleDevice(ttl: nat, hash: string -> Hash, run: seq<State>, k: nat, i: nat, j: nat)
    requires Injective(hash) && IsRun(ttl, hash, run) && k < |run| && i < |run[k].tokens| && j < |run[k].tokens|
    requires var ts := run[k].tokens; !ts[i].revoked && !ts[j].revoked && ts[i].user == ts[j].user
    ensures i == j
  {
    Reachable(ttl, hash, run, k);
    hide IsRun, Injective, HashesUnique, Granted, AllLinked;
  }

  lemma StepRemembers(ttl: nat, hash: string -> Hash, s: State, s': State, i: nat)
    requires Next(ttl, hash, s, s') && i < |s.tokens|
    ensures i < |s'.tokens| && s'.tokens[i].user == s.tokens[i].user && s'.tokens[i].hash == s.tokens[i].hash
    ensures s.tokens[i].revoked ==> s'.tokens[i].revoked
  {
    hide Find, HashUsed;
  }

  lemma {:induction false} RunRemembers(ttl: nat, hash: string -> Hash, run: seq<State>, k: nat, m: nat, i: nat)
    requires IsRun(ttl, hash, run) && k <= m < |run| && i < |run[k].tokens|
    ensures i < |run[m].tokens| && run[m].tokens[i].user == run[k].tokens[i].user && run[m].tokens[i].hash == run[k].tokens[i].hash
    ensures run[k].tokens[i].revoked ==> run[m].tokens[i].revoked
  {
    if k == m {
    } else {
      hide Next;
      RunRemembers(ttl, hash, run, k, m - 1, i);
      assert Next(ttl, hash, run[m - 1], run[m - 1 + 1]);
      StepRemembers(ttl, hash, run[m - 1], run[m], i);
    }
  }

  lemma FindsOnly(ts: seq<Token>, i: nat)
    requires HashesUnique(ts) && i < |ts|
    ensures Find(ts, ts[i].hash) == Some(i)
  {
    var r := Find(ts, ts[i].hash);
    hide Find;
    assert HashUsed(ts, ts[i].hash);
  }

  /** A token that was revoked, for whatever reason, never works again. */
  lemma RevokedForGood(ttl: nat, hash: string -> Hash, run: seq<State>, k: nat, m: nat, i: nat, now: int)
    requires Injective(hash) && IsRun(ttl, hash, run) && k <= m < |run| && i < |run[k].tokens| && run[k].tokens[i].revoked
    ensures !Works(run[m].tokens, run[k].tokens[i].hash, now)
  {
    RunRemembers(ttl, hash, run, k, m, i);
    Reachable(ttl, hash, run, m);
    FindsOnly(run[m].tokens, i);
    hide IsRun, Injective, Find, AllLinked;
  }

  lemma RotationRevokes(ttl: nat, hash: string -> Hash, s: State, s': State, raw: string, newRaw: string, now: int)
    requires Rotates(ttl, hash, s, s', raw, newRaw, now)
    ensures var i := Find(s.tokens, hash(raw)).value;
      i < |s'.tokens| && s'.tokens[i].revoked && s'.tokens[i].hash == hash(raw)
  {
    hide HashUsed;
  }

  lemma LoginRevokes(ttl: nat, hash: string -> Hash, s: State, s': State, user: Id, raw: string, now: int, i: nat)
    requires Issues(ttl, hash, s, s', user, raw, now) && i < |s.tokens| && s.tokens[i].user == user
    ensures i < |s'.tokens| && s'.tokens[i].revoked && s'.tokens[i].hash == s.tokens[i].hash
  {
    hide HashUsed;
  }

  /** A token that was traded in never works again ... */
  lemma RotationSpends(ttl: nat, hash: string -> Hash, run: seq<State>, k: nat, m: nat, raw: string, newRaw: string,
      now: int, later: int)
    requires Injective(hash) && IsRun(ttl, hash, run) && k < m < |run|
    requires Rotates(ttl, hash, run[k], run[k + 1], raw, newRaw, now)
    ensures !Works(run[m].tokens, hash(raw), later)
  {
    RotationRevokes(ttl, hash, run[k], run[k + 1], raw, newRaw, now);
    var i := Find(run[k].tokens, hash(raw)).value;
    hide IsRun, Injective, Rotates, Find;
    RevokedForGood(ttl, hash, run, k + 1, m, i, later);
  }

  /** ... and neither does any token the user had before a login. */
  lemma LoginSpends(ttl: nat, hash: string -> Hash, run: seq<State>, k: nat, m: nat, user: Id, raw: string,
      now: int, i: nat, later: int)
    requires Injective(hash) && IsRun(ttl, hash, run) && k < m < |run|
    requires Issues(ttl, hash, run[k], run[k + 1], user, raw, now)
    requires i < |run[k].tokens| && run[k].tokens[i].user == user
    ensures !Works(run[m].tokens, run[k].tokens[i].hash, later)
  {
    LoginRevokes(ttl, hash, run[k], run[k + 1], user, raw, now, i);
    hide IsRun, Injective, Issues, Find;
    RevokedForGood(ttl, hash, run, k + 1, m, i, later);
  }

  lemma GrantFound(ttl: nat, hash: string -> Hash, s: State, i: nat)
    requires Inv(ttl, hash, s) && i < |s.grants|
    ensures i < |s.tokens| && Find(s.tokens, hash(s.grants[i].raw)) == Some(i)
    ensures s.tokens[i].expires == s.grants[i].at + ttl && s.tokens[i].user == s.grants[i].user
  {
    hide Find, AllLinked, OneEach;
    FindsOnly(s.tokens, i);
  }

  /**
   Which tokens can be exchanged in a state of a run: exactly those that were handed out at most ttl
   ago and are not revoked; the exchange yields the user they were handed to.
   */
  lemma ExchangeExact(ttl: nat, hash: string -> Hash, run: seq<State>, k: nat, i: nat, newRaw: string, now: int)
    requires Injective(hash) && IsRun(ttl, hash, run) && k < |run| && i < |run[k].grants|
    requires !HashUsed(run[k].tokens, hash(newRaw))
    ensures var s, g := run[k], run[k].grants[i];
      && i < |s.tokens|
      && ((exists s' :: Rotates(ttl, hash, s, s', g.raw, newRaw, now)) <==> !s.tokens[i].revoked && now <= g.at + ttl)
      && forall s' | Rotates(ttl, hash, s, s', g.raw, newRaw, now) ::
        s'.grants == s.grants + [Exchange(g.user, newRaw, now, g.raw)]
  {
    Reachable(ttl, hash, run, k);
    GrantFound(ttl, hash, run[k], i);
    hide IsRun, Injective, Inv, Find, HashUsed;
    var s, g := run[k], run[k].grants[i];
    if !s.tokens[i].revoked && now <= g.at + ttl {
      var next := State(RevokedAt(s.tokens, i) + [Token(g.user, hash(newRaw), now + ttl, false)],
        s.grants + [Exchange(g.user, newRaw, now, g.raw)]);
      assert Rotates(ttl, hash, s, next, g.raw, newRaw, now);
    }
  }

  /** Whatever is exchanged in a run was handed out before, and at most ttl ago. */
  lemma ExchangedWasGranted(ttl: nat, hash: string -> Hash, run: seq<State>, k: nat, raw: string, newRaw: string, now: int)
    requires Injective(hash) && IsRun(ttl, hash, run) && k + 1 < |run|
    requires Rotates(ttl, hash, run[k], run[k + 1], raw, newRaw, now)
    ensures exists i: nat | i < |run[k].grants| :: run[k].grants[i].raw == raw && now <= run[k].grants[i].at + ttl
  {
    Reachable(ttl, hash, run, k);
    hide IsRun, HashUsed, AllLinked;
    var i := Find(run[k].tokens, hash(raw)).value;
    hide Find;
    assert run[k].grants[i].raw == raw;
  }

  /** Grant b spends what grant a handed out. */
  predicate Spends(gs: seq<Grant>, a: nat, b: nat) {
    a < |gs| && b < |gs| && gs[b].Exchange? && gs[b].spent == gs[a].raw
  }

  /** A chain of exchanges: each spends what the one before it handed out. */
  ghost predicate Chain(gs: seq<Grant>, path: seq<nat>) {
    && (forall p | 0 <= p < |path| :: path[p] < |gs|)
    && (forall p: nat | p + 1 < |path| :: Spends(gs, path[p], path[p + 1]))
  }

  lemma SameRaw(ttl: nat, hash: string -> Hash, s: State, i: nat, j: nat)
    requires Injective(hash) && Inv(ttl, hash, s) && i < |s.grants| && j < |s.grants| && s.grants[i].raw == s.grants[j].raw
    ensures i == j
  {
    hide Injective, OneEach, AllLinked;
  }

  /** Rotation always yields the user the chain was issued to at login. */
  lemma {:induction false} ChainKeepsUser(ttl: nat, hash: string -> Hash, run: seq<State>, k: nat, path: seq<nat>)
    requires Injective(hash) && IsRun(ttl, hash, run) && k < |run| && path != [] && Chain(run[k].grants, path)
    ensures run[k].grants[path[|path| - 1]].user == run[k].grants[path[0]].user
  {
    if |path| == 1 {
    } else {
      hide IsRun, Injective;
      var gs, n := run[k].grants, |path| - 1;
      var init := path[..n];
      forall p: nat | p + 1 < |init| ensures Spends(gs, init[p], init[p + 1]) {
        assert Spends(gs, path[p], path[p + 1]);
      }
      ChainKeepsUser(ttl, hash, run, k, init);
      Reachable(ttl, hash, run, k);
      assert Spends(gs, path[n - 1], path[n - 1 + 1]);
      var j :| Linked(gs, path[n], j);
      hide Inv;
      SameRaw(ttl, hash, run[k], j, path[n - 1]);
    }
  }
}
