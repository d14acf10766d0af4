/**
 One-time codes (internal/otp/service.go, repository.go): rate limits on requests, lockout on
 guesses, over every sequential run with a clock that does not go back.
 */
module Otp {
  import opened Basics

  const MAX_ATTEMPTS := 5
  /** 24 hours, in the clock's unit of nanoseconds. */
  const DAY := 86_400_000_000_000

  /** A limit of 0 is off. */
  datatype Config = Config(ttl: nat, cooldown: nat, dailyLimit: nat)

  datatype Code = Code(target: string, purpose: string, secret: string, created: int, expires: int,
    consumed: bool, attempts: nat)

  predicate For(c: Code, target: string, purpose: string) {
    c.target == target && c.purpose == purpose
  }

  /** CountSince: codes created at or after the given time. */
  function CountSince(cs: seq<Code>, target: string, purpose: string, since: int): nat {
    if cs == [] then 0
    else
      var c := cs[|cs| - 1];
      CountSince(cs[..|cs| - 1], target, purpose, since) + if For(c, target, purpose) && c.created >= since then 1 else 0
  }

  /** The codes of a target and purpose created at or after the given time. */
  function Recent(cs: seq<Code>, target: string, purpose: string, since: int): set<nat> {
    set i: nat | i < |cs| && For(cs[i], target, purpose) && cs[i].created >= since
  }

  lemma {:induction false} CountIsRecent(cs: seq<Code>, target: string, purpose: string, since: int)
    ensures CountSince(cs, target, purpose, since) == |Recent(cs, target, purpose, since)|
  {
    if cs == [] {
    } else {
      var init, n := cs[..|cs| - 1], |cs| - 1;
      CountIsRecent(init, target, purpose, since);
      var last := if For(cs[n], target, purpose) && cs[n].created >= since then {n} else {};
      hide For;
      assert Recent(cs, target, purpose, since) == Recent(init, target, purpose, since) + last;
      assert Recent(init, target, purpose, since) * last == {};
    }
  }

  /** Does a request pass the rate limits? */
  predicate Allowed(cfg: Config, cs: seq<Code>, target: string, purpose: string, now: int) {
    && (cfg.cooldown > 0 ==> CountSince(cs, target, purpose, now - cfg.cooldown) == 0)
    && (cfg.dailyLimit > 0 ==> CountSince(cs, target, purpose, now - DAY) < cfg.dailyLimit)
  }

  /** LatestUnconsumed: codes are kept in order of creation. */
  function Latest(cs: seq<Code>, target: string, purpose: string): (r: Option<nat>)
    ensures r.Some? ==> r.value < |cs| && For(cs[r.value], target, purpose) && !cs[r.value].consumed
  {
    if cs == [] then None
    else if For(cs[|cs| - 1], target, purpose) && !cs[|cs| - 1].consumed then Some(|cs| - 1)
    else Latest(cs[..|cs| - 1], target, purpose)
  }

  lemma {:induction false} LatestIsNewest(cs: seq<Code>, target: string, purpose: string, j: nat)
    requires j < |cs| && For(cs[j], target, purpose) && !cs[j].consumed
    ensures Latest(cs, target, purpose).Some? && j <= Latest(cs, target, purpose).value
  {
    if !(For(cs[|cs| - 1], target, purpose) && !cs[|cs| - 1].consumed) {
      LatestIsNewest(cs[..|cs| - 1], target, purpose, j);
    }
  }

  /** Code i is the newest one for the target and purpose that is not consumed. */
  predicate Newest(cs: seq<Code>, target: string, purpose: string, i: nat) {
    && i < |cs| && For(cs[i], target, purpose) && !cs[i].consumed
    && forall j | i < j < |cs| :: !For(cs[j], target, purpose) || cs[j].consumed
  }

  /** A submission is held against code i: the newest unconsumed one, unexpired and not locked. */
  predicate Faces(cs: seq<Code>, target: string, purpose: string, now: int, i: nat) {
    Newest(cs, target, purpose, i) && now <= cs[i].expires && cs[i].attempts < MAX_ATTEMPTS
  }

  ghost predicate FacesSome(cs: seq<Code>, target: string, purpose: string, now: int) {
    exists i: nat :: Faces(cs, target, purpose, now, i)
  }

  lemma LatestNewest(cs: seq<Code>, target: string, purpose: string)
    ensures Latest(cs, target, purpose).Some? ==> Newest(cs, target, purpose, Latest(cs, target, purpose).value)
    ensures Latest(cs, target, purpose).None? ==> forall i: nat :: !Newest(cs, target, purpose, i)
  {
    forall j: nat | j < |cs| && For(cs[j], target, purpose) && !cs[j].consumed
      ensures Latest(cs, target, purpose).Some? && j <= Latest(cs, target, purpose).value
    {
      LatestIsNewest(cs, target, purpose, j);
    }
  }

  lemma OneNewest(cs: seq<Code>, target: string, purpose: string)
    ensures forall i: nat, j: nat | Newest(cs, target, purpose, i) && Newest(cs, target, purpose, j) :: i == j
  {
  }

  /**
   What submitting a code does: the right secret consumes the code it faces, a wrong one is counted on it,
   and nothing else ever changes.
   */
  ghost predicate Answers(cs: seq<Code>, cs': seq<Code>, ok: bool, target: string, purpose: string, submitted: string,
      now: int) {
    && (forall i: nat | Faces(cs, target, purpose, now, i) ::
      if cs[i].secret == submitted then ok && cs' == cs[i := cs[i].(consumed := true)]
      else !ok && cs' == cs[i := cs[i].(attempts := cs[i].attempts + 1)])
    && (!FacesSome(cs, target, purpose, now) ==> !ok && cs' == cs)
  }

  function Issued(cfg: Config, target: string, purpose: string, secret: string, now: int): Code {
    Code(target, purpose, secret, now, now + cfg.ttl, false, 0)
  }

  // --- The service ---

  class Service {
    const cfg: Config
    var codes: seq<Code>

    constructor (cfg: Config)
      ensures this.cfg == cfg && codes == []
    {
      this.cfg := cfg;
      this.codes := [];
    }

    method Count(target: string, purpose: string, since: int) returns (n: nat)
      ensures n == CountSince(codes, target, purpose, since)
    {
      n := 0;
      assert codes[..0] == [];
      for i := 0 to |codes|
        invariant n == CountSince(codes[..i], target, purpose, since)
      {
        assert codes[..i + 1][..i] == codes[..i];
        if For(codes[i], target, purpose) && codes[i].created >= since {
          n := n + 1;
        }
      }
      assert codes[..|codes|] == codes;
    }

    /** The code is stored before it is sent; a request over a limit stores nothing. */
    method RequestCode(target: string, purpose: string, secret: string, now: int) returns (ok: bool)
      modifies this
      ensures ok <==> Allowed(cfg, old(codes), target, purpose, now)
      ensures ok <==>
        && (cfg.cooldown > 0 ==> Recent(old(codes), target, purpose, now - cfg.cooldown) == {})
        && (cfg.dailyLimit > 0 ==> |Recent(old(codes), target, purpose, now - DAY)| < cfg.dailyLimit)
      ensures codes == if ok then old(codes) + [Code(target, purpose, secret, now, now + cfg.ttl, false, 0)] else old(codes)
    {
      CountIsRecent(codes, target, purpose, now - cfg.cooldown);
      CountIsRecent(codes, target, purpose, now - DAY);
      if cfg.cooldown > 0 {
        var n := Count(target, purpose, now - cfg.cooldown);
        if n > 0 {
          return false;
        }
      }
      if cfg.dailyLimit > 0 {
        var n := Count(target, purpose, now - DAY);
        if n >= cfg.dailyLimit {
          return false;
        }
      }
      codes := codes + [Issued(cfg, target, purpose, secret, now)];
      return true;
    }

    /** Refusals look the same to the caller. */
    method Verify(target: string, purpose: string, submitted: string, now: int) returns (ok: bool)
      modifies this
      ensures Answers(old(codes), codes, ok, target, purpose, submitted, now)
    {
      LatestNewest(codes, target, purpose);
      OneNewest(codes, target, purpose);
      assert forall i: nat | Faces(codes, target, purpose, now, i) :: Newest(codes, target, purpose, i);
      var found := Latest(codes, target, purpose);
      if found.None? {
        return false;
      }
      var i := found.value;
      if now > codes[i].expires {
        return false;
      }
      if codes[i].attempts >= MAX_ATTEMPTS {
        return false;
      }
      assert Faces(codes, target, purpose, now, i);
      if codes[i].secret != submitted {
        codes := codes[i := codes[i].(attempts := codes[i].attempts + 1)];
        return false;
      }
      codes := codes[i := codes[i].(consumed := true)];
      return true;
    }
  }

  // --- Runs: calls one after the other ---

  /** A call of Verify: what it was given, the codes it met, and its answer. */
  datatype Try = Try(codes: seq<Code>, target: string, purpose: string, submitted: string, now: int, ok: bool)

  datatype State = State(codes: seq<Code>, clock: int, tries: seq<Try>)

  ghost predicate Requests(cfg: Config, s: State, s': State, target: string, purpose: string, secret: string, now: int) {
    && now >= s.clock && Allowed(cfg, s.codes, target, purpose, now)
    && s' == State(s.codes + [Issued(cfg, target, purpose, secret, now)], now, s.tries)
  }

  ghost predicate Verifies(s: State, s': State, t: Try) {
    && t.now >= s.clock && t.codes == s.codes && s'.clock == t.now && s'.tries == s.tries + [t]
    && Answers(s.codes, s'.codes, t.ok, t.target, t.purpose, t.submitted, t.now)
  }

  ghost predicate Next(cfg: Config, s: State, s': State) {
    || (exists target, purpose, secret, now :: Requests(cfg, s, s', target, purpose, secret, now))
    || (exists t :: Verifies(s, s', t))
  }

  ghost predicate IsRun(cfg: Config, run: seq<State>) {
    && run != [] && run[0].codes == [] && run[0].tries == []
    && forall k: nat | k + 1 < |run| :: Next(cfg, run[k], run[k + 1])
  }

  /** The comparison with code i failed. */
  predicate Missed(t: Try, i: nat) {
    Faces(t.codes, t.target, t.purpose, t.now, i) && t.codes[i].secret != t.submitted
  }

  /** Code i was accepted. */
  predicate Took(t: Try, i: nat) {
    t.ok && Newest(t.codes, t.target, t.purpose, i)
  }

  /** How often code i was compared in vain. */
  function Misses(ts: seq<Try>, i: nat): nat {
    if ts == [] then 0 else Misses(ts[..|ts| - 1], i) + if Missed(ts[|ts| - 1], i) then 1 else 0
  }

  /** How often code i was accepted. */
  function Acceptances(ts: seq<Try>, i: nat): nat {
    if ts == [] then 0 else Acceptances(ts[..|ts| - 1], i) + if Took(ts[|ts| - 1], i) then 1 else 0
  }

  lemma OneMoreTry(ts: seq<Try>, t: Try, i: nat)
    ensures Misses(ts + [t], i) == Misses(ts, i) + if Missed(t, i) then 1 else 0
    ensures Acceptances(ts + [t], i) == Acceptances(ts, i) + if Took(t, i) then 1 else 0
  {
    assert (ts + [t])[..|ts + [t]| - 1] == ts;
  }

  // --- Rate limits ---

  predicate Same(a: Code, b: Code) {
    a.target == b.target && a.purpose == b.purpose
  }

  ghost predicate Spaced(cfg: Config, cs: seq<Code>) {
    cfg.cooldown > 0 ==>
      forall i, j | 0 <= i < j < |cs| && Same(cs[i], cs[j]) :: cs[j].created - cs[i].created > cfg.cooldown
  }

  /** When code j was created, the 24 hours before it were within the limit, itself included. */
  predicate CappedAt(cfg: Config, cs: seq<Code>, j: nat)
    requires j < |cs|
  {
    CountSince(cs[..j + 1], cs[j].target, cs[j].purpose, cs[j].created - DAY) <= cfg.dailyLimit
  }

  ghost predicate Capped(cfg: Config, cs: seq<Code>) {
    cfg.dailyLimit > 0 ==> forall j: nat | j < |cs| :: CappedAt(cfg, cs, j)
  }

  ghost predicate Ordered(s: State) {
    && (forall i, j | 0 <= i < j < |s.codes| :: s.codes[i].created <= s.codes[j].created)
    && (forall i | 0 <= i < |s.codes| :: s.codes[i].created <= s.clock)
  }

  lemma {:induction false} NoneSince(cs: seq<Code>, target: string, purpose: string, since: int, i: nat)
    requires CountSince(cs, target, purpose, since) == 0 && i < |cs| && For(cs[i], target, purpose)
    ensures cs[i].created < since
  {
    if i == |cs| - 1 {
    } else {
      NoneSince(cs[..|cs| - 1], target, purpose, since, i);
    }
  }

  lemma CountAppend(cs: seq<Code>, c: Code, target: string, purpose: string, since: int)
    ensures CountSince(cs + [c], target, purpose, since) ==
      CountSince(cs, target, purpose, since) + if For(c, target, purpose) && c.created >= since then 1 else 0
  {
    assert (cs + [c])[..|cs + [c]| - 1] == cs;
  }

  lemma IssueSpaced(cfg: Config, cs: seq<Code>, target: string, purpose: string, secret: string, now: int)
    requires Spaced(cfg, cs) && Allowed(cfg, cs, target, purpose, now)
    ensures Spaced(cfg, cs + [Issued(cfg, target, purpose, secret, now)])
  {
    var ds := cs + [Issued(cfg, target, purpose, secret, now)];
    hide CountSince;
    if cfg.cooldown > 0 {
      forall i, j | 0 <= i < j < |ds| && Same(ds[i], ds[j]) ensures ds[j].created - ds[i].created > cfg.cooldown {
        if j == |cs| {
          NoneSince(cs, target, purpose, now - cfg.cooldown, i);
        }
      }
    }
  }

  lemma CappedPrefix(cfg: Config, cs: seq<Code>, ds: seq<Code>, j: nat)
    requires j < |cs| <= |ds| && ds[..|cs|] == cs
    ensures CappedAt(cfg, ds, j) <==> CappedAt(cfg, cs, j)
  {
    assert ds[..j + 1] == cs[..j + 1];
    hide CountSince;
  }

  lemma IssueCapped(cfg: Config, cs: seq<Code>, target: string, purpose: string, secret: string, now: int)
    requires Capped(cfg, cs) && Allowed(cfg, cs, target, purpose, now)
    ensures Capped(cfg, cs + [Issued(cfg, target, purpose, secret, now)])
  {
    var c := Issued(cfg, target, purpose, secret, now);
    var ds := cs + [c];
    if cfg.dailyLimit > 0 {
      forall j: nat | j < |ds| ensures CappedAt(cfg, ds, j) {
        if j < |cs| {
          hide CappedAt;
          CappedPrefix(cfg, cs, ds, j);
        } else {
          assert ds[..j + 1] == ds;
          CountAppend(cs, c, target, purpose, now - DAY);
          hide CountSince;
        }
      }
    }
  }

  /** The same codes as far as rate limits go. */
  ghost predicate SameTimes(a: seq<Code>, b: seq<Code>) {
    |a| == |b| && forall i | 0 <= i < |a| :: Same(a[i], b[i]) && a[i].created == b[i].created && a[i].expires == b[i].expires
  }

  lemma {:induction false} SameCount(a: seq<Code>, b: seq<Code>, target: string, purpose: string, since: int)
    requires SameTimes(a, b)
    ensures CountSince(a, target, purpose, since) == CountSince(b, target, purpose, since)
  {
    if a == [] {
    } else {
      SameCount(a[..|a| - 1], b[..|b| - 1], target, purpose, since);
    }
  }

  lemma AnswersSame(cs: seq<Code>, cs': seq<Code>, ok: bool, target: string, purpose: string, submitted: string, now: int)
    requires Answers(cs, cs', ok, target, purpose, submitted, now)
    ensures SameTimes(cs, cs')
  {
    hide Faces;
    if FacesSome(cs, target, purpose, now) {
      var i: nat :| Faces(cs, target, purpose, now, i);
      FacesOne(cs, target, purpose, now, i);
    }
  }

  lemma FacesOne(cs: seq<Code>, target: string, purpose: string, now: int, i: nat)
    requires Faces(cs, target, purpose, now, i)
    ensures i < |cs|
  {
  }

  lemma SameLimits(cfg: Config, a: seq<Code>, b: seq<Code>)
    requires SameTimes(a, b) && Spaced(cfg, a) && Capped(cfg, a)
    ensures Spaced(cfg, b) && Capped(cfg, b)
  {
    if cfg.cooldown > 0 {
      forall i, j | 0 <= i < j < |b| && Same(b[i], b[j]) ensures b[j].created - b[i].created > cfg.cooldown {
        assert Same(a[i], b[i]) && Same(a[j], b[j]);
      }
    }
    if cfg.dailyLimit > 0 {
      forall j: nat | j < |b| ensures CappedAt(cfg, b, j) {
        assert Same(a[j], b[j]) && CappedAt(cfg, a, j);
        SameCount(a[..j + 1], b[..j + 1], b[j].target, b[j].purpose, b[j].created - DAY);
      }
    }
  }

  // --- Guesses ---

  /** Misses are counted on the code they hit; a code is consumed once, before it is locked. */
  ghost predicate CodeOk(s: State, i: nat)
    requires i < |s.codes|
  {
    && s.codes[i].attempts == Misses(s.tries, i) <= MAX_ATTEMPTS
    && Acceptances(s.tries, i) == (if s.codes[i].consumed then 1 else 0)
    && (s.codes[i].consumed ==> s.codes[i].attempts < MAX_ATTEMPTS)
  }

  ghost predicate GuessesOk(s: State) {
    && (forall i: nat | i < |s.codes| :: CodeOk(s, i))
    && (forall i: nat | i >= |s.codes| :: Misses(s.tries, i) == 0 && Acceptances(s.tries, i) == 0)
  }

  /** The codes a call met are still there, as they were issued. */
  predicate MetCodes(cs: seq<Code>, t: Try) {
    |t.codes| <= |cs| && forall i | 0 <= i < |t.codes| :: Same(t.codes[i], cs[i])
  }

  /** A call is answered by the secret: accepted if and only if it is that of the code it faces. */
  ghost predicate Answered(t: Try) {
    t.ok <==> exists i: nat :: Faces(t.codes, t.target, t.purpose, t.now, i) && t.codes[i].secret == t.submitted
  }

  /** The codes call n met are what the calls before it had made of the codes issued. */
  predicate HistoryAt(cfg: Config, ts: seq<Try>, n: nat, i: nat)
    requires n < |ts| && i < |ts[n].codes|
  {
    var c := ts[n].codes[i];
    && c.expires == c.created + cfg.ttl && c.attempts == Misses(ts[..n], i)
    && (c.consumed <==> Acceptances(ts[..n], i) > 0)
  }

  predicate History(cfg: Config, ts: seq<Try>, n: nat)
    requires n < |ts|
  {
    forall i: nat | i < |ts[n].codes| :: HistoryAt(cfg, ts, n, i)
  }

  ghost predicate TryOk(cfg: Config, s: State, n: nat)
    requires n < |s.tries|
  {
    MetCodes(s.codes, s.tries[n]) && Answered(s.tries[n]) && History(cfg, s.tries, n)
  }

  ghost predicate TriesOk(cfg: Config, s: State) {
    && (forall n: nat | n < |s.tries| :: TryOk(cfg, s, n))
    && (forall i | 0 <= i < |s.codes| :: s.codes[i].expires == s.codes[i].created + cfg.ttl)
  }

  ghost predicate Inv(cfg: Config, s: State) {
    Ordered(s) && Spaced(cfg, s.codes) && Capped(cfg, s.codes) && GuessesOk(s) && TriesOk(cfg, s)
  }

  lemma RequestKeeps(cfg: Config, s: State, s': State, target: string, purpose: string, secret: string, now: int)
    requires Inv(cfg, s) && Requests(cfg, s, s', target, purpose, secret, now)
    ensures Inv(cfg, s')
  {
    IssueSpaced(cfg, s.codes, target, purpose, secret, now);
    IssueCapped(cfg, s.codes, target, purpose, secret, now);
    hide Spaced, Capped, Allowed, Misses, Acceptances, Answered;
    forall i: nat | i < |s'.codes| ensures CodeOk(s', i) {
      if i < |s.codes| {
        assert CodeOk(s, i);
      }
    }
    hide History;
    forall n: nat | n < |s'.tries| ensures TryOk(cfg, s', n) {
      assert TryOk(cfg, s, n);
    }
  }

  /** The one code a call changes, if any. */
  lemma TryEffect(s: State, s': State, t: Try, i: nat)
    requires Verifies(s, s', t) && |s.codes| == |s'.codes|
    ensures i < |s.codes| ==> s'.codes[i].attempts == s.codes[i].attempts + if Missed(t, i) then 1 else 0
    ensures i < |s.codes| ==> s'.codes[i].consumed == (s.codes[i].consumed || Took(t, i))
    ensures Missed(t, i) ==> i < |s.codes| && s.codes[i].attempts < MAX_ATTEMPTS && !s.codes[i].consumed
    ensures Took(t, i) ==> i < |s.codes| && s.codes[i].attempts < MAX_ATTEMPTS && !s.codes[i].consumed
  {
    var cs := s.codes;
    OneNewest(cs, t.target, t.purpose);
    if FacesSome(cs, t.target, t.purpose, t.now) {
      var f: nat :| Faces(cs, t.target, t.purpose, t.now, f);
      assert Newest(cs, t.target, t.purpose, f);
      hide Answers;
    }
  }

  lemma VerifyGuesses(s: State, s': State, t: Try)
    requires GuessesOk(s) && Verifies(s, s', t) && |s.codes| == |s'.codes|
    ensures GuessesOk(s')
  {
    forall i: nat
      ensures i < |s'.codes| ==> CodeOk(s', i)
      ensures i >= |s'.codes| ==> Misses(s'.tries, i) == 0 && Acceptances(s'.tries, i) == 0
    {
      OneMoreTry(s.tries, t, i);
      TryEffect(s, s', t, i);
      if i < |s.codes| {
        assert CodeOk(s, i);
      }
      hide Misses, Acceptances, Missed, Took, Verifies;
    }
  }

  lemma IsAnswered(s: State, s': State, t: Try)
    requires Verifies(s, s', t)
    ensures Answered(t)
  {
    hide Faces;
  }

  lemma VerifyKeeps(cfg: Config, s: State, s': State, t: Try)
    requires Inv(cfg, s) && Verifies(s, s', t)
    ensures Inv(cfg, s')
  {
    AnswersSame(s.codes, s'.codes, t.ok, t.target, t.purpose, t.submitted, t.now);
    SameLimits(cfg, s.codes, s'.codes);
    VerifyGuesses(s, s', t);
    VerifyTries(cfg, s, s', t);
    hide Spaced, Capped, GuessesOk, Answers, TriesOk;
  }

  lemma VerifyTries(cfg: Config, s: State, s': State, t: Try)
    requires GuessesOk(s) && TriesOk(cfg, s) && Verifies(s, s', t) && SameTimes(s.codes, s'.codes)
    ensures TriesOk(cfg, s')
  {
    IsAnswered(s, s', t);
    hide Answers, Answered, Misses, Acceptances;
    forall n: nat | n < |s'.tries| ensures TryOk(cfg, s', n) {
      assert s'.tries[..n] == s.tries[..n];
      if n < |s.tries| {
        assert TryOk(cfg, s, n);
        forall i: nat | i < |s.tries[n].codes| ensures HistoryAt(cfg, s'.tries, n, i) {
          assert HistoryAt(cfg, s.tries, n, i);
        }
        assert forall i | 0 <= i < |s.codes| :: Same(s.codes[i], s'.codes[i]);
      } else {
        assert s.tries[..n] == s.tries;
        forall i: nat | i < |t.codes| ensures HistoryAt(cfg, s'.tries, n, i) {
          assert CodeOk(s, i);
        }
      }
    }
  }

  lemma {:induction false} Reachable(cfg: Config, run: seq<State>, k: nat)
    requires IsRun(cfg, run) && k < |run|
    ensures Inv(cfg, run[k])
  {
    if k == 0 {
    } else {
      hide Inv, Next, Requests, Verifies;
      Reachable(cfg, run, k - 1);
      assert Next(cfg, run[k - 1], run[k - 1 + 1]);
      StepKeeps(cfg, run[k - 1], run[k]);
    }
  }

  lemma StepKeeps(cfg: Config, s: State, s': State)
    requires Inv(cfg, s) && Next(cfg, s, s')
    ensures Inv(cfg, s')
  {
    hide Inv, Requests, Verifies;
    if target, purpose, secret, now :| Requests(cfg, s, s', target, purpose, secret, now) {
      RequestKeeps(cfg, s, s', target, purpose, secret, now);
    } else {
      var t :| Verifies(s, s', t);
      VerifyKeeps(cfg, s, s', t);
    }
  }

  // --- What holds in every run ---

  /** Any two codes for one target and purpose are more than the cooldown apart. */
  lemma CooldownHolds(cfg: Config, run: seq<State>, k: nat, i: nat, j: nat)
    requires IsRun(cfg, run) && k < |run| && cfg.cooldown > 0
    requires i < j < |run[k].codes| && Same(run[k].codes[i], run[k].codes[j])
    ensures run[k].codes[j].created - run[k].codes[i].created > cfg.cooldown
  {
    Reachable(cfg, run, k);
    hide IsRun, Capped, GuessesOk, Ordered;
  }

  /** The codes of a target and purpose created within [from, until]. */
  function CountWithin(cs: seq<Code>, target: string, purpose: string, from: int, until: int): nat {
    if cs == [] then 0
    else
      var c := cs[|cs| - 1];
      CountWithin(cs[..|cs| - 1], target, purpose, from, until)
      + if For(c, target, purpose) && from <= c.created <= until then 1 else 0
  }

  lemma {:induction false} WithinSince(cs: seq<Code>, target: string, purpose: string, from: int, until: int, since: int)
    requires since <= from
    ensures CountWithin(cs, target, purpose, from, until) <= CountSince(cs, target, purpose, since)
  {
    if cs == [] {
    } else {
      WithinSince(cs[..|cs| - 1], target, purpose, from, until, since);
    }
  }

  /** Cut the history back to the last code inside the window: there the cap was enforced. */
  lemma {:induction false} WindowCapped(cfg: Config, cs: seq<Code>, target: string, purpose: string, from: int)
    requires Capped(cfg, cs) && cfg.dailyLimit > 0
    ensures CountWithin(cs, target, purpose, from, from + DAY) <= cfg.dailyLimit
  {
    if cs == [] {
    } else {
      var n := |cs| - 1;
      var c := cs[n];
      if For(c, target, purpose) && from <= c.created <= from + DAY {
        assert cs[..n + 1] == cs && CappedAt(cfg, cs, n);
        hide CountSince, CountWithin;
        WithinSince(cs, target, purpose, from, from + DAY, c.created - DAY);
      } else {
        forall j: nat | j < n ensures CappedAt(cfg, cs[..n], j) {
          CappedPrefix(cfg, cs[..n], cs, j);
        }
        hide CappedAt;
        WindowCapped(cfg, cs[..n], target, purpose, from);
      }
    }
  }

  /** Every window of 24 hours, wherever it starts, contains at most the daily limit. */
  lemma DailyLimitHolds(cfg: Config, run: seq<State>, k: nat, target: string, purpose: string, from: int)
    requires IsRun(cfg, run) && k < |run| && cfg.dailyLimit > 0
    ensures CountWithin(run[k].codes, target, purpose, from, from + DAY) <= cfg.dailyLimit
  {
    Reachable(cfg, run, k);
    hide IsRun, Spaced, GuessesOk, Ordered, Capped;
    WindowCapped(cfg, run[k].codes, target, purpose, from);
  }

  /** A code is accepted at most once, and compared in vain at most five times; after the fifth it is never accepted. */
  lemma AcceptedOnce(cfg: Config, run: seq<State>, k: nat, i: nat)
    requires IsRun(cfg, run) && k < |run|
    ensures Acceptances(run[k].tries, i) <= 1 && Misses(run[k].tries, i) <= MAX_ATTEMPTS
    ensures Misses(run[k].tries, i) == MAX_ATTEMPTS ==> Acceptances(run[k].tries, i) == 0
  {
    Reachable(cfg, run, k);
    hide IsRun, Capped, Spaced, Ordered, Misses, Acceptances, TriesOk;
    if i < |run[k].codes| {
      assert CodeOk(run[k], i);
    }
  }

  /**
   Code i is the one a call with this history is about: issued for its target and purpose at most ttl ago,
   never accepted, compared in vain fewer than five times, and every later one has been accepted.
   */
  predicate Due(cfg: Config, before: seq<Try>, t: Try, i: nat) {
    && i < |t.codes| && For(t.codes[i], t.target, t.purpose) && t.now <= t.codes[i].created + cfg.ttl
    && Acceptances(before, i) == 0 && Misses(before, i) < MAX_ATTEMPTS
    && forall j: nat | i < j < |t.codes| && For(t.codes[j], t.target, t.purpose) :: Acceptances(before, j) > 0
  }

  /** Every call of a run is accepted if and only if it gave the secret of the code that was due. */
  lemma AcceptanceMeans(cfg: Config, run: seq<State>, k: nat, n: nat)
    requires IsRun(cfg, run) && k < |run| && n < |run[k].tries|
    ensures var t, before := run[k].tries[n], run[k].tries[..n];
      && MetCodes(run[k].codes, t)
      && (t.ok <==> exists i: nat :: Due(cfg, before, t, i) && t.codes[i].secret == t.submitted)
  {
    Reachable(cfg, run, k);
    hide IsRun, Capped, Spaced, Ordered, GuessesOk, Misses, Acceptances;
    var t, before := run[k].tries[n], run[k].tries[..n];
    assert TryOk(cfg, run[k], n);
    forall i: nat ensures Due(cfg, before, t, i) <==> Faces(t.codes, t.target, t.purpose, t.now, i) {
      DueFaces(cfg, run[k].tries, n, i);
    }
    hide Due, Faces;
  }

  lemma DueFaces(cfg: Config, ts: seq<Try>, n: nat, i: nat)
    requires n < |ts| && History(cfg, ts, n)
    ensures Due(cfg, ts[..n], ts[n], i) <==> Faces(ts[n].codes, ts[n].target, ts[n].purpose, ts[n].now, i)
  {
    hide Misses, Acceptances;
    var cs, before := ts[n].codes, ts[..n];
    forall j: nat | j < |cs|
      ensures cs[j].expires == cs[j].created + cfg.ttl && cs[j].attempts == Misses(before, j)
      ensures cs[j].consumed <==> Acceptances(before, j) > 0
    {
      assert HistoryAt(cfg, ts, n, j);
    }
    hide History, HistoryAt;
  }

  // --- All guesses together ---

  /** A call for the target and purpose whose comparison failed. */
  ghost predicate Failed(t: Try, target: string, purpose: string) {
    t.target == target && t.purpose == purpose && exists i: nat :: Missed(t, i)
  }

  /** How many comparisons failed for a target and purpose, over all its codes. */
  ghost function Guesses(ts: seq<Try>, target: string, purpose: string): nat {
    if ts == [] then 0
    else Guesses(ts[..|ts| - 1], target, purpose) + if Failed(ts[|ts| - 1], target, purpose) then 1 else 0
  }

  function CodesFor(cs: seq<Code>, target: string, purpose: string): nat {
    if cs == [] then 0
    else CodesFor(cs[..|cs| - 1], target, purpose) + if For(cs[|cs| - 1], target, purpose) then 1 else 0
  }

  /** The same failed comparisons, counted code by code. */
  function GuessesByCode(cs: seq<Code>, ts: seq<Try>, target: string, purpose: string): nat {
    if cs == [] then 0
    else
      GuessesByCode(cs[..|cs| - 1], ts, target, purpose)
      + if For(cs[|cs| - 1], target, purpose) then Misses(ts, |cs| - 1) else 0
  }

  /** A failed comparison is of one code of its target and purpose. */
  ghost predicate HitsOne(cs: seq<Code>, t: Try, target: string, purpose: string) {
    exists i: nat | i < |cs| :: For(cs[i], target, purpose) && Missed(t, i)
  }

  lemma MissedOne(t: Try)
    ensures forall i: nat, j: nat | Missed(t, i) && Missed(t, j) :: i == j
  {
    OneNewest(t.codes, t.target, t.purpose);
    assert forall i: nat | Missed(t, i) :: Newest(t.codes, t.target, t.purpose, i);
    hide Newest;
  }

  lemma {:induction false} OneMoreGuess(cs: seq<Code>, ts: seq<Try>, target: string, purpose: string)
    requires ts != []
    ensures GuessesByCode(cs, ts, target, purpose) ==
      GuessesByCode(cs, ts[..|ts| - 1], target, purpose) + if HitsOne(cs, ts[|ts| - 1], target, purpose) then 1 else 0
  {
    if cs == [] {
    } else {
      var init, t := cs[..|cs| - 1], ts[|ts| - 1];
      OneMoreGuess(init, ts, target, purpose);
      MissedOne(t);
      hide Missed, For;
      assert forall i: nat | i < |init| :: init[i] == cs[i];
    }
  }

  lemma {:induction false} NoGuesses(cs: seq<Code>, target: string, purpose: string)
    ensures GuessesByCode(cs, [], target, purpose) == 0
  {
    if cs == [] {
    } else {
      NoGuesses(cs[..|cs| - 1], target, purpose);
    }
  }

  lemma FailedHits(cs: seq<Code>, t: Try, target: string, purpose: string)
    requires MetCodes(cs, t)
    ensures Failed(t, target, purpose) ==> HitsOne(cs, t, target, purpose)
  {
    if Failed(t, target, purpose) {
      var i: nat :| Missed(t, i);
      assert Same(t.codes[i], cs[i]);
    }
  }

  lemma {:induction false} GuessesAreByCode(cs: seq<Code>, ts: seq<Try>, target: string, purpose: string)
    requires forall n | 0 <= n < |ts| :: MetCodes(cs, ts[n])
    ensures Guesses(ts, target, purpose) <= GuessesByCode(cs, ts, target, purpose)
  {
    if ts == [] {
      NoGuesses(cs, target, purpose);
    } else {
      GuessesAreByCode(cs, ts[..|ts| - 1], target, purpose);
      OneMoreGuess(cs, ts, target, purpose);
      FailedHits(cs, ts[|ts| - 1], target, purpose);
    }
  }

  lemma {:induction false} ByCodeBounded(cs: seq<Code>, ts: seq<Try>, target: string, purpose: string)
    requires forall i: nat | i < |cs| :: Misses(ts, i) <= MAX_ATTEMPTS
    ensures GuessesByCode(cs, ts, target, purpose) <= MAX_ATTEMPTS * CodesFor(cs, target, purpose)
  {
    if cs == [] {
    } else {
      ByCodeBounded(cs[..|cs| - 1], ts, target, purpose);
      assert Misses(ts, |cs| - 1) <= MAX_ATTEMPTS;
    }
  }

  /** The comparisons of submitted secrets that failed in a run are at most five per code issued. */
  lemma GuessesBounded(cfg: Config, run: seq<State>, k: nat, target: string, purpose: string)
    requires IsRun(cfg, run) && k < |run|
    ensures Guesses(run[k].tries, target, purpose) <= MAX_ATTEMPTS * CodesFor(run[k].codes, target, purpose)
  {
    var cs, ts := run[k].codes, run[k].tries;
    forall n | 0 <= n < |ts| ensures MetCodes(cs, ts[n]) {
      AcceptanceMeans(cfg, run, k, n);
    }
    hide IsRun, Misses, Acceptances, Guesses, GuessesByCode, MetCodes;
    forall i: nat | i < |cs| ensures Misses(ts, i) <= MAX_ATTEMPTS {
      AcceptedOnce(cfg, run, k, i);
    }
    GuessesAreByCode(cs, ts, target, purpose);
    ByCodeBounded(cs, ts, target, purpose);
  }
}
