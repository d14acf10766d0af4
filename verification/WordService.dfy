/**
 Saves and publishes interleaved at their store calls (internal/word/service.go, Save and
 Publish): any number of requests, each split between its reads and its write.
 */
module WordService {
  import opened Basics
  import opened WordModel
  import opened WordTables
  import opened WordValidation
  import opened WordPublish
  import opened WordStore
  import opened WordRead
  import opened WordAlike
  import opened WordReplace
  import opened WordInvariant
  import opened WordFrame
  import opened WordRoundTrip
  import opened WordSaveInvariant
  import opened WordWrites
  import opened WordEcho
  import opened WordRepository

  predicate CompleteTree(t: Word) {
    Complete(t.frequency, t.mode, t.dialects, t.pos)
  }

  predicate CompleteBody(b: SaveInput) {
    Complete(b.frequency, b.mode, b.dialects, b.pos)
  }

  predicate PublishableBody(b: SaveInput) {
    Publishable(b.frequency, b.mode, b.dialects, b.pos)
  }

  // --- Completeness does not look at what the server owns ---

  lemma FormsAlikeMeet(allowed: seq<Dialect>, a: POS, b: POS)
    requires AlikeTab(a, b)
    ensures BasesOk(allowed, a) ==> BasesOk(allowed, b)
    ensures FormsComplete(a) ==> FormsComplete(b)
  {
    if BasesOk(allowed, a) {
      forall k | 0 <= k < |allowed| ensures OneBase(b.forms, allowed[k]) {
        assert OneBase(a.forms, allowed[k]);
        SameBases(a.forms, b.forms, allowed[k]);
      }
    }
    if FormsComplete(a) {
      forall i: nat | i < |b.forms| ensures FormComplete(b.forms[i]) {
        assert FormComplete(a.forms[i]) && AlikeForm(a.forms[i], b.forms[i]);
        forall k: nat | k < |b.forms[i].pronunciations| ensures PronComplete(b.forms[i].pronunciations[k]) {
          assert PronComplete(a.forms[i].pronunciations[k]);
        }
      }
    }
  }

  lemma SameBases(a: seq<Form>, b: seq<Form>, d: Dialect)
    requires AlikeForms(a, b) && OneBase(a, d)
    ensures OneBase(b, d)
  {
    forall i | 0 <= i < |a| ensures IsBase(a[i], d) == IsBase(b[i], d) {
      SameBase(a, b, d, i);
    }
    hide IsBase, AlikeForms;
    SameLength(a, b);
    var i :| 0 <= i < |a| && IsBase(a[i], d) && forall j | 0 <= j < |a| && j != i :: !IsBase(a[j], d);
    forall j | 0 <= j < |b| && j != i ensures !IsBase(b[j], d) {
      assert !IsBase(a[j], d);
    }
  }

  lemma SameBase(a: seq<Form>, b: seq<Form>, d: Dialect, i: nat)
    requires AlikeForms(a, b) && i < |a|
    ensures IsBase(a[i], d) == IsBase(b[i], d)
  {
    assert AlikeForm(a[i], b[i]);
  }

  lemma SameLength(a: seq<Form>, b: seq<Form>)
    requires AlikeForms(a, b)
    ensures |a| == |b|
  {
  }

  lemma StructsAlikeMeet(allowed: seq<Dialect>, a: POS, b: POS)
    requires AlikeTab(a, b) && StructsComplete(allowed, a)
    ensures StructsComplete(allowed, b)
  {
    forall i: nat | i < |b.structures| ensures StructComplete(allowed, b.structures[i]) {
      assert StructComplete(allowed, a.structures[i]) && AlikeStruct(a.structures[i], b.structures[i]);
      forall k | 0 <= k < |allowed| ensures WordingOk(b.structures[i].variants, allowed[k]) {
        assert WordingOk(a.structures[i].variants, allowed[k]);
        SameWording(a.structures[i].variants, b.structures[i].variants, allowed[k]);
      }
    }
  }

  lemma SameWording(a: seq<GrammarVariant>, b: seq<GrammarVariant>, d: Dialect)
    requires AlikeVariants(a, b) && WordingOk(a, d)
    ensures WordingOk(b, d)
  {
    hide Blank;
    var i :| 0 <= i < |a| && LastOf(a, d, i) && !Blank(a[i].content);
    assert LastOf(b, d, i);
  }

  lemma SensesAlikeMeet(a: POS, b: POS)
    requires AlikeTab(a, b)
    ensures HasDefinitions(a) ==> HasDefinitions(b)
    ensures SensesFilled(a) ==> SensesFilled(b)
    ensures DefinitionsWorded(a) ==> DefinitionsWorded(b)
  {
    hide Blank;
    forall i: nat | i < |a.senses|
      ensures AlikeSense(a.senses[i], b.senses[i])
      ensures Worded(a.senses[i]) ==> Worded(b.senses[i])
    {
      var s, t := a.senses[i], b.senses[i];
      assert AlikeSense(s, t);
      if Worded(s) {
        forall k: nat | k < |t.definitions| ensures !Blank(t.definitions[k].text) {
          assert !Blank(s.definitions[k].text);
        }
      }
    }
  }

  lemma TabAlikeMeets(rule: Rule, allowed: seq<Dialect>, a: POS, b: POS)
    requires AlikeTab(a, b) && !rule.V10? && PosMeets(rule, allowed, a)
    ensures PosMeets(rule, allowed, b)
  {
    hide AlikeTab, BasesOk, FormsComplete, StructsComplete, HasDefinitions, SensesFilled, DefinitionsWorded;
    FormsAlikeMeet(allowed, a, b);
    SensesAlikeMeet(a, b);
    if rule.V6? {
      StructsAlikeMeet(allowed, a, b);
    }
  }

  lemma AlikeComplete(a: SaveInput, b: SaveInput)
    requires Alike(a, b) && CompleteBody(a)
    ensures CompleteBody(b)
  {
    hide AlikeTab, PosMeets;
    forall rule: Rule | !rule.V10? ensures Meets(rule, b.frequency, b.mode, b.dialects, b.pos) {
      assert Meets(rule, a.frequency, a.mode, a.dialects, a.pos);
      if !rule.V1? && !rule.V2? && !rule.V3? {
        forall i: nat | i < |b.pos| ensures PosMeets(rule, Allowed(b.mode, b.dialects), b.pos[i]) {
          assert PosMeets(rule, Allowed(a.mode, a.dialects), a.pos[i]);
          TabAlikeMeets(rule, Allowed(a.mode, a.dialects), a.pos[i], b.pos[i]);
        }
      }
    }
  }

  lemma PublishableIs(b: SaveInput)
    ensures PublishableBody(b) <==> CompleteBody(b) && Meets(V10, b.frequency, b.mode, b.dialects, b.pos)
  {
    hide Meets;
  }

  // --- The machine ---

  /** A request between its reads and its store write. */
  datatype Request =
    | SaveRequest(word: Id, body: SaveInput)
    | PublishRequest(word: Id, base: Token)

  /** A successful write of an entry: the token it was based on and the token it left. */
  datatype Write = Write(word: Id, base: Token, now: Token)

  /** The clock hands every write a token never used before. */
  datatype State = State(db: DB, clock: Token, requests: map<nat, Request>, log: seq<Write>)

  predicate Start(s: State) {
    s.db == DB(map[], map[]) && s.clock == 1 && s.requests == map[] && s.log == []
  }

  /** Save up to its SaveTree call: the entry is read, the body validated, and held to V1-V10 if published. */
  ghost predicate BeginSave(s: State, s': State, r: nat, w: Id, input: SaveInput) {
    var b := Normalized(input);
    && r !in s.requests && w in s.db.words && input.base < s.clock
    && Valid(b) && (s.db.words[w].status == Published ==> PublishableBody(b))
    && s' == s.(requests := s.requests[r := SaveRequest(w, b)])
  }

  ghost predicate EndSave(s: State, s': State, r: nat) {
    && r in s.requests && s.requests[r].SaveRequest?
    && var w, b := s.requests[r].word, s.requests[r].body;
      if CanSave(s.db, w, b) then
        && Replaces(s.db, w, b, s.clock, s'.db)
        && s' == State(s'.db, s.clock + 1, s.requests - {r}, s.log + [Write(w, b.base, s.clock)])
      else s' == s.(requests := s.requests - {r})
  }

  /** Publish up to its SetStatus call: the tree is read and held to V1-V10. */
  ghost predicate BeginPublish(s: State, s': State, r: nat, w: Id) {
    && r !in s.requests && w in s.db.words && RowsFit(s.db.rows)
    && var t := TreeOf(s.db, w);
      PublishableBody(Echo(t)) && s' == s.(requests := s.requests[r := PublishRequest(w, t.updatedAt)])
  }

  ghost predicate EndPublish(s: State, s': State, r: nat) {
    && r in s.requests && s.requests[r].PublishRequest?
    && var w, base := s.requests[r].word, s.requests[r].base;
      if w in s.db.words && s.db.words[w].token == base then
        s' == State(StatusSet(s.db, w, Published, s.clock), s.clock + 1, s.requests - {r}, s.log + [Write(w, base, s.clock)])
      else s' == s.(requests := s.requests - {r})
  }

  /** Ids of new entries are fresh. */
  ghost predicate Creates(s: State, s': State, w: Id, kind: Kind, headword: string, author: Id) {
    && w !in s.db.words && (forall i | 0 <= i < |s.log| :: s.log[i].word != w)
    && s' == State(Created(s.db, w, Shell(kind, headword, author, s.clock)), s.clock + 1, s.requests,
      s.log + [Write(w, ZERO_TIME, s.clock)])
  }

  ghost predicate Deletes(s: State, s': State, ws: set<Id>) {
    s' == s.(db := DeleteWords(s.db, ws))
  }

  ghost predicate Next(s: State, s': State) {
    || (exists r, w, input :: BeginSave(s, s', r, w, input))
    || (exists r :: EndSave(s, s', r))
    || (exists r, w :: BeginPublish(s, s', r, w))
    || (exists r :: EndPublish(s, s', r))
    || (exists w, kind, headword, author :: Creates(s, s', w, kind, headword, author))
    || (exists ws :: Deletes(s, s', ws))
  }

  // --- The invariant ---

  ghost predicate Blessed(db: DB, w: Id) {
    RowsFit(db.rows) && w in db.words && CompleteTree(TreeOf(db, w))
  }

  /** While the entry has not been written since, the request's check still speaks about it. */
  ghost predicate RequestOk(s: State, q: Request) {
    match q
    case SaveRequest(w, b) =>
      && Valid(b) && b.base < s.clock
      && (w in s.db.words && s.db.words[w].token == b.base && s.db.words[w].status == Published ==> CompleteBody(b))
    case PublishRequest(w, base) =>
      base < s.clock && (w in s.db.words && s.db.words[w].token == base ==> Blessed(s.db, w))
  }

  /** Write j of an entry is the last one before i. */
  predicate Prior(log: seq<Write>, j: int, i: int) {
    && 0 <= j < i <= |log|
    && forall k | j < k < i :: log[k].word != log[j].word
  }

  /** Each write but the first of an entry is based on the write just before it. */
  ghost predicate Chained(log: seq<Write>) {
    forall i | 0 <= i < |log| && log[i].base != ZERO_TIME ::
      exists j | 0 <= j < i :: Prior(log, j, i) && log[j].word == log[i].word && log[j].now == log[i].base
  }

  ghost predicate Current(s: State, w: Id) {
    w in s.db.words ==>
      exists j | 0 <= j < |s.log| :: Prior(s.log, j, |s.log|) && s.log[j].word == w && s.log[j].now == s.db.words[w].token
  }

  ghost predicate TokensOld(s: State) {
    forall w | w in s.db.words :: s.db.words[w].token < s.clock
  }

  ghost predicate PublishedComplete(db: DB) {
    forall w | w in db.words && db.words[w].status == Published :: Blessed(db, w)
  }

  ghost predicate Inv(s: State) {
    && WF(s.db) && s.clock != ZERO_TIME && TokensOld(s)
    && PublishedComplete(s.db)
    && (forall r | r in s.requests :: RequestOk(s, s.requests[r]))
    && Chained(s.log) && (forall w :: Current(s, w))
  }

  // --- What a store write does to entries ---

  /** Entries in ws carry the new token; every other entry keeps its row, and completeness. */
  ghost predicate Effect(db: DB, after: DB, ws: set<Id>, now: Token) {
    && WF(after)
    && forall v | v in after.words ::
      if v in ws then after.words[v].token == now
      else v in db.words && after.words[v] == db.words[v] && (Blessed(db, v) ==> Blessed(after, v))
  }

  lemma UnlinkedComplete(x: Lost, t: Word)
    requires Proper(x, t) && CompleteTree(t)
    ensures CompleteTree(UnlinkedTree(x, t))
  {
    hide Proper, CompleteBody, CompleteTree, UnlinkedTabs, Alike, Complete;
    SameCompleteness(t);
    SameCompleteness(UnlinkedTree(x, t));
    UnlinkedAlike(x, t);
    AlikeComplete(Echo(t), Echo(UnlinkedTree(x, t)));
  }

  lemma SameCompleteness(t: Word)
    ensures CompleteTree(t) <==> CompleteBody(Echo(t))
  {
    hide Complete;
  }

  lemma SaveOther(db: DB, w: Id, b: SaveInput, now: Token, after: DB, v: Id)
    requires Saving(db, w, b, now, after) && v in after.words && v != w
    ensures v in db.words && after.words[v] == db.words[v] && (Blessed(db, v) ==> Blessed(after, v))
  {
    SaveOtherRow(db, w, b, now, after, v);
    SavingParts(db, w, b, now, after);
    hide Saving, WF, CompleteTree, Gone, TreeOf, RowsFit, Valid;
    OthersUntouched(db, w, b, now, after, v);
    if Blessed(db, v) {
      EntryValid(db, v);
      NodesOkOf(Echo(TreeOf(db, v)));
      ProperWithoutWords(Lost(Gone(db, w, b), {}), TreeOf(db, v));
      UnlinkedComplete(Lost(Gone(db, w, b), {}), TreeOf(db, v));
    }
  }

  lemma NodesOkOf(b: SaveInput)
    requires Valid(b)
    ensures NodesOk(b)
  {
    hide NodesOk;
  }

  lemma SaveOtherRow(db: DB, w: Id, b: SaveInput, now: Token, after: DB, v: Id)
    requires Saving(db, w, b, now, after)
    ensures v in after.words && v != w ==> v in db.words && after.words[v] == db.words[v]
    ensures w in after.words && after.words[w].token == now && w in db.words && after.words[w].status == db.words[w].status
  {
    hide WF, Valid, CanSave, BodyStored, OthersKept;
  }

  lemma SaveEffect(db: DB, w: Id, b: SaveInput, now: Token, after: DB)
    requires Saving(db, w, b, now, after)
    ensures Effect(db, after, {w}, now)
  {
    hide Saving, WF, Blessed;
    SaveKeepsWF(db, w, b, now, after);
    forall v | v in after.words
      ensures if v == w then after.words[v].token == now
        else v in db.words && after.words[v] == db.words[v] && (Blessed(db, v) ==> Blessed(after, v))
    {
      SaveOtherRow(db, w, b, now, after, v);
      if v != w {
        SaveOther(db, w, b, now, after, v);
      }
    }
  }

  /** A saved complete body is a complete entry. */
  lemma SavedComplete(db: DB, w: Id, b: SaveInput, now: Token, after: DB)
    requires Saving(db, w, b, now, after) && CompleteBody(b)
    ensures Blessed(after, w)
  {
    SavingSound(db, w, b, now, after);
    var o := Origin(db, w, b, after.rows);
    hide Saving, WF, Valid, CanSave, Replaces, NodesOk, CompleteTree, CompleteBody, TreeOf, RowsFit, LinksOk, Rooted, FrequencyOk, Alike;
    RoundTrip(db, w, b, now, after);
    ServedAlike(o, now);
    AlikeComplete(b, Echo(ServedTree(o, now)));
    SameCompleteness(ServedTree(o, now));
  }

  lemma SavingSound(db: DB, w: Id, b: SaveInput, now: Token, after: DB)
    requires Saving(db, w, b, now, after)
    ensures Rooted(db) && RowsFit(db.rows) && LinksOk(db) && NodesOk(b) && FrequencyOk(b.frequency)
    ensures CanSave(db, w, b) && Replaces(db, w, b, now, after)
  {
    hide WF, CanSave, Replaces, NodesOk, Rooted, RowsFit, LinksOk, FrequencyOk;
    WFParts(db);
  }

  lemma StatusEffect(db: DB, w: Id, now: Token)
    requires WF(db) && w in db.words && now != ZERO_TIME
    ensures Effect(db, StatusSet(db, w, Published, now), {w}, now)
    ensures Blessed(db, w) ==> Blessed(StatusSet(db, w, Published, now), w)
  {
    hide WF, TreeOf, RowsFit, Complete;
    StatusKeepsWF(db, w, Published, now);
  }

  lemma CreateEffect(db: DB, w: Id, kind: Kind, headword: string, author: Id, now: Token)
    requires WF(db) && w !in db.words && now != ZERO_TIME
    ensures Effect(db, Created(db, w, Shell(kind, headword, author, now)), {w}, now)
  {
    hide WF, TreeOf, RowsFit, CompleteTree;
    CreateKeepsWF(db, w, kind, headword, author, now);
  }

  lemma DeleteOther(db: DB, ws: set<Id>, v: Id)
    requires WF(db) && v in DeleteWords(db, ws).words
    ensures v in db.words && v !in ws && DeleteWords(db, ws).words[v] == db.words[v]
    ensures Blessed(db, v) ==> Blessed(DeleteWords(db, ws), v)
  {
    DeletedWords(db, ws);
    hide WF, DeleteWords, CompleteTree, TreeOf, RowsFit, LostWith;
    if Blessed(db, v) {
      DeleteLeavesOthers(db, ws, v);
      DeletedProper(db, ws, v);
      UnlinkedComplete(LostWith(db, ws), TreeOf(db, v));
    }
  }

  lemma DeleteEffect(db: DB, ws: set<Id>, now: Token)
    requires WF(db)
    ensures Effect(db, DeleteWords(db, ws), {}, now)
  {
    hide WF, DeleteWords, Blessed;
    DeleteKeepsWF(db, ws);
    forall v | v in DeleteWords(db, ws).words
      ensures v in db.words && DeleteWords(db, ws).words[v] == db.words[v]
      ensures Blessed(db, v) ==> Blessed(DeleteWords(db, ws), v)
    {
      DeleteOther(db, ws, v);
    }
  }

  // --- Every step keeps the invariant ---

  lemma RequestSurvives(s: State, s': State, ws: set<Id>, q: Request)
    requires RequestOk(s, q) && Effect(s.db, s'.db, ws, s.clock) && s'.clock >= s.clock
    ensures RequestOk(s', q)
  {
    hide WF, Blessed, Valid, CompleteBody;
  }

  lemma RequestsSurvive(s: State, s': State, ws: set<Id>)
    requires Inv(s) && Effect(s.db, s'.db, ws, s.clock) && s'.clock >= s.clock
    requires forall r | r in s'.requests :: r in s.requests && s'.requests[r] == s.requests[r]
    ensures forall r | r in s'.requests :: RequestOk(s', s'.requests[r])
  {
    hide RequestOk, Effect, WF, PublishedComplete, Chained, Current, TokensOld;
    forall r | r in s'.requests ensures RequestOk(s', s'.requests[r]) {
      RequestSurvives(s, s', ws, s'.requests[r]);
    }
  }

  lemma PublishedAfter(s: State, s': State, ws: set<Id>)
    requires PublishedComplete(s.db) && Effect(s.db, s'.db, ws, s.clock)
    requires forall w | w in ws && w in s'.db.words && s'.db.words[w].status == Published :: Blessed(s'.db, w)
    ensures PublishedComplete(s'.db)
  {
    hide WF, Blessed;
  }

  lemma TokensAfter(s: State, s': State, ws: set<Id>)
    requires TokensOld(s) && Effect(s.db, s'.db, ws, s.clock) && s'.clock > s.clock
    ensures TokensOld(s')
  {
    hide WF, Blessed;
  }

  /** A write of w based on w's current token extends the chain. */
  lemma LogGrows(s: State, s': State, w: Id, base: Token)
    requires Chained(s.log) && (forall v :: Current(s, v)) && Effect(s.db, s'.db, {w}, s.clock)
    requires base == ZERO_TIME || (w in s.db.words && s.db.words[w].token == base)
    requires s'.log == s.log + [Write(w, base, s.clock)]
    ensures Chained(s'.log) && forall v :: Current(s', v)
  {
    hide WF, Blessed;
    var n := |s.log|;
    forall i | 0 <= i < |s'.log| && s'.log[i].base != ZERO_TIME
      ensures exists j | 0 <= j < i :: Prior(s'.log, j, i) && s'.log[j].word == s'.log[i].word && s'.log[j].now == s'.log[i].base
    {
      if i < n {
        var j :| 0 <= j < i && Prior(s.log, j, i) && s.log[j].word == s.log[i].word && s.log[j].now == s.log[i].base;
        assert Prior(s'.log, j, i);
      } else {
        assert Current(s, w);
        var j :| 0 <= j < n && Prior(s.log, j, n) && s.log[j].word == w && s.log[j].now == s.db.words[w].token;
        assert Prior(s'.log, j, n);
      }
    }
    forall v | v in s'.db.words
      ensures exists j | 0 <= j < |s'.log| :: Prior(s'.log, j, |s'.log|) && s'.log[j].word == v && s'.log[j].now == s'.db.words[v].token
    {
      if v == w {
        assert Prior(s'.log, n, n + 1);
      } else {
        assert Current(s, v);
        var j :| 0 <= j < n && Prior(s.log, j, n) && s.log[j].word == v && s.log[j].now == s.db.words[v].token;
        assert Prior(s'.log, j, n + 1);
      }
    }
  }

  /** A store write with its consequences. */
  lemma WriteKeeps(s: State, s': State, w: Id, base: Token)
    requires Inv(s) && Effect(s.db, s'.db, {w}, s.clock) && s'.clock == s.clock + 1
    requires forall r | r in s'.requests :: r in s.requests && s'.requests[r] == s.requests[r]
    requires base == ZERO_TIME || (w in s.db.words && s.db.words[w].token == base)
    requires s'.log == s.log + [Write(w, base, s.clock)]
    requires w in s'.db.words && s'.db.words[w].status == Published ==> Blessed(s'.db, w)
    ensures Inv(s')
  {
    assert s'.clock != ZERO_TIME;
    hide *;
    InvParts(s);
    EffectWF(s.db, s'.db, {w}, s.clock);
    RequestsSurvive(s, s', {w});
    PublishedAfter(s, s', {w});
    TokensAfter(s, s', {w});
    LogGrows(s, s', w, base);
    InvFrom(s');
  }

  lemma InvFrom(s: State)
    requires WF(s.db) && s.clock != ZERO_TIME && TokensOld(s) && PublishedComplete(s.db)
    requires Chained(s.log) && forall w :: Current(s, w)
    requires forall r | r in s.requests :: RequestOk(s, s.requests[r])
    ensures Inv(s)
  {
    hide RequestOk, WF, PublishedComplete, Chained, Current, TokensOld;
  }

  lemma EffectWF(db: DB, after: DB, ws: set<Id>, now: Token)
    requires Effect(db, after, ws, now)
    ensures WF(after)
  {
    hide WF, Blessed;
  }

  lemma InvParts(s: State)
    requires Inv(s)
    ensures WF(s.db) && s.clock != ZERO_TIME && TokensOld(s) && PublishedComplete(s.db)
    ensures Chained(s.log) && forall w :: Current(s, w)
  {
    hide RequestOk, WF, PublishedComplete, Chained, Current, TokensOld;
  }

  lemma RequestHeld(s: State, r: nat)
    requires Inv(s) && r in s.requests
    ensures RequestOk(s, s.requests[r])
  {
    hide RequestOk, WF, PublishedComplete, Chained, Current, TokensOld;
  }

  lemma EndSaveKeeps(s: State, s': State, r: nat)
    requires Inv(s) && EndSave(s, s', r)
    ensures Inv(s')
  {
    InvParts(s);
    RequestHeld(s, r);
    var w, b := s.requests[r].word, s.requests[r].body;
    hide Inv, WF, PublishedComplete, Chained, Current, TokensOld, Blessed, Valid, CompleteBody, Replaces, CanSave;
    if CanSave(s.db, w, b) {
      SaveBase(s.db, w, b);
      SaveEffect(s.db, w, b, s.clock, s'.db);
      SaveOtherRow(s.db, w, b, s.clock, s'.db, w);
      if s.db.words[w].status == Published {
        SavedComplete(s.db, w, b, s.clock, s'.db);
      }
      WriteKeeps(s, s', w, b.base);
    } else {
      FewerRequests(s, s', r);
    }
  }

  lemma SaveBase(db: DB, w: Id, b: SaveInput)
    requires CanSave(db, w, b)
    ensures w in db.words && db.words[w].token == b.base
  {
  }

  lemma FewerRequests(s: State, s': State, r: nat)
    requires Inv(s) && s' == s.(requests := s.requests - {r})
    ensures Inv(s')
  {
    hide WF, PublishedComplete, Chained, Blessed, Valid, CompleteBody;
    forall q | q in s'.requests ensures RequestOk(s', s'.requests[q]) {
      assert RequestOk(s, s.requests[q]);
    }
    forall w ensures Current(s', w) {
      assert Current(s, w);
    }
  }

  lemma OneMoreRequest(s: State, s': State, r: nat, q: Request)
    requires Inv(s) && RequestOk(s, q) && s' == s.(requests := s.requests[r := q])
    ensures Inv(s')
  {
    hide WF, PublishedComplete, Chained, Blessed, Valid, CompleteBody;
    forall p | p in s'.requests ensures RequestOk(s', s'.requests[p]) {
      if p != r {
        assert RequestOk(s, s.requests[p]);
      }
    }
    forall w ensures Current(s', w) {
      assert Current(s, w);
    }
  }

  lemma BeginSaveKeeps(s: State, s': State, r: nat, w: Id, input: SaveInput)
    requires Inv(s) && BeginSave(s, s', r, w, input)
    ensures Inv(s')
  {
    var b := Normalized(input);
    PublishableIs(b);
    hide Inv, Valid, PublishableBody, CompleteBody, Blessed, Map, NormalFreq;
    OneMoreRequest(s, s', r, SaveRequest(w, b));
  }

  lemma BeginPublishKeeps(s: State, s': State, r: nat, w: Id)
    requires Inv(s) && BeginPublish(s, s', r, w)
    ensures Inv(s')
  {
    PassedCheck(s, w);
    hide Inv, WF, PublishableBody, CompleteBody, CompleteTree, TreeOf, RowsFit, RequestOk, Echo;
    OneMoreRequest(s, s', r, PublishRequest(w, TreeOf(s.db, w).updatedAt));
  }

  /** A tree that passed the publish check: the request holds its token and its completeness. */
  lemma PassedCheck(s: State, w: Id)
    requires Inv(s) && w in s.db.words && RowsFit(s.db.rows)
    ensures PublishableBody(Echo(TreeOf(s.db, w))) ==> RequestOk(s, PublishRequest(w, TreeOf(s.db, w).updatedAt))
  {
    InvParts(s);
    var t := TreeOf(s.db, w);
    PublishableIs(Echo(t));
    SameCompleteness(t);
    TreeToken(s.db, w);
    hide Inv, WF, PublishableBody, CompleteBody, CompleteTree, TreeOf, RowsFit, Echo;
  }

  lemma TreeToken(db: DB, w: Id)
    requires RowsFit(db.rows) && w in db.words
    ensures TreeOf(db, w).updatedAt == db.words[w].token
  {
  }

  lemma EndPublishKeeps(s: State, s': State, r: nat)
    requires Inv(s) && EndPublish(s, s', r)
    ensures Inv(s')
  {
    InvParts(s);
    RequestHeld(s, r);
    var w, base := s.requests[r].word, s.requests[r].base;
    hide Inv, WF, PublishedComplete, Chained, Current, TokensOld, Blessed;
    if w in s.db.words && s.db.words[w].token == base {
      StatusEffect(s.db, w, s.clock);
      WriteKeeps(s, s', w, base);
    } else {
      FewerRequests(s, s', r);
    }
  }

  lemma CreatesKeeps(s: State, s': State, w: Id, kind: Kind, headword: string, author: Id)
    requires Inv(s) && Creates(s, s', w, kind, headword, author)
    ensures Inv(s')
  {
    InvParts(s);
    hide Inv, WF, PublishedComplete, Chained, Current, TokensOld, Blessed;
    CreateEffect(s.db, w, kind, headword, author, s.clock);
    WriteKeeps(s, s', w, ZERO_TIME);
  }

  lemma DeletesKeeps(s: State, s': State, ws: set<Id>)
    requires Inv(s) && Deletes(s, s', ws)
    ensures Inv(s')
  {
    InvParts(s);
    hide WF, PublishedComplete, Chained, Blessed, DeleteWords, RequestOk, Effect;
    DeleteEffect(s.db, ws, s.clock);
    EffectWF(s.db, s'.db, {}, s.clock);
    RequestsSurvive(s, s', {});
    PublishedAfter(s, s', {});
    DeletedTokens(s.db, ws);
    forall w ensures Current(s', w) {
      assert Current(s, w);
    }
  }

  lemma DeletedTokens(db: DB, ws: set<Id>)
    ensures forall w | w in DeleteWords(db, ws).words :: w in db.words && DeleteWords(db, ws).words[w] == db.words[w]
  {
  }

  lemma StepKeeps(s: State, s': State)
    requires Inv(s) && Next(s, s')
    ensures Inv(s')
  {
    hide Inv, BeginSave, EndSave, BeginPublish, EndPublish, Creates, Deletes;
    if r, w, input :| BeginSave(s, s', r, w, input) {
      BeginSaveKeeps(s, s', r, w, input);
    } else if r :| EndSave(s, s', r) {
      EndSaveKeeps(s, s', r);
    } else if r, w :| BeginPublish(s, s', r, w) {
      BeginPublishKeeps(s, s', r, w);
    } else if r :| EndPublish(s, s', r) {
      EndPublishKeeps(s, s', r);
    } else if w, kind, headword, author :| Creates(s, s', w, kind, headword, author) {
      CreatesKeeps(s, s', w, kind, headword, author);
    } else {
      var ws :| Deletes(s, s', ws);
      DeletesKeeps(s, s', ws);
    }
  }

  lemma StartHolds(s: State)
    requires Start(s)
    ensures Inv(s)
  {
    EmptyStore();
    hide WF;
  }

  // --- Over whole runs ---

  ghost predicate IsRun(run: seq<State>) {
    && run != [] && Start(run[0])
    && forall i | 0 <= i < |run| - 1 :: Next(run[i], run[i + 1])
  }

  lemma {:induction false} Reachable(run: seq<State>, i: nat)
    requires IsRun(run) && i < |run|
    ensures Inv(run[i])
  {
    hide Inv, Next, Start;
    if i == 0 {
      StartHolds(run[0]);
    } else {
      Reachable(run, i - 1);
      assert Next(run[i - 1], run[i - 1 + 1]);
      StepKeeps(run[i - 1], run[i]);
    }
  }

  /** In every state of every interleaving, each published entry satisfies V1 to V9. */
  lemma PublishedAlwaysComplete(run: seq<State>, i: nat, w: Id)
    requires IsRun(run) && i < |run|
    requires w in run[i].db.words && run[i].db.words[w].status == Published
    ensures RowsFit(run[i].db.rows) && CompleteTree(TreeOf(run[i].db, w))
  {
    Reachable(run, i);
    InvParts(run[i]);
    hide Inv, IsRun, WF, CompleteTree, TreeOf;
  }

  /** Successful writes of one entry form a chain: each was based on the one just before it. */
  lemma WritesChain(run: seq<State>, i: nat, k: nat)
    requires IsRun(run) && i < |run| && k < |run[i].log| && run[i].log[k].base != ZERO_TIME
    ensures var log := run[i].log;
      exists j | 0 <= j < k :: Prior(log, j, k) && log[j].word == log[k].word && log[j].now == log[k].base
  {
    Reachable(run, i);
    InvParts(run[i]);
    hide Inv, IsRun, WF, Prior;
  }

  /** Every reachable store is well-formed. */
  lemma StoreAlwaysWellFormed(run: seq<State>, i: nat)
    requires IsRun(run) && i < |run|
    ensures WF(run[i].db)
  {
    Reachable(run, i);
    InvParts(run[i]);
  }

  /** Where the references of a row lead: a group of its entry, a structure of its pos, a sense of the linked word. */
  ghost predicate RefInside(db: DB, k: Key)
    requires k in db.rows
  {
    var rows, row := db.rows, db.rows[k];
    match row.data
    case SenseData(_, _, Some(id), _, _) =>
      Key(Groups, id) in rows && Root(rows, Key(Groups, id)) == Root(rows, k)
    case DefData(_, _, _, Some(id)) =>
      var g, s := Key(Structs, id), Key(Senses, row.parent);
      g in rows && s in rows && rows[g].parent == rows[s].parent && Root(rows, g) == Root(rows, k)
    case RelData(_, Link(word, sense, _, _), _) =>
      && (word.Some? ==> word.value in db.words)
      && (sense.Some? ==> word.Some? && Root(rows, Key(Senses, sense.value)) == word)
    case _ => true
  }

  lemma SenseInside(db: DB, k: Key)
    requires RefsInside(db.rows) && k in db.rows && k.table.Senses? && db.rows[k].data.SenseData?
    ensures RefInside(db, k)
  {
    GroupsInside(db.rows, k);
    if db.rows[k].data.group.Some? {
      SenseGroupSameEntry(db.rows, k);
      hide RefsInside, Root;
    }
  }

  lemma DefinitionInside(db: DB, k: Key)
    requires RefsInside(db.rows) && k in db.rows && k.table.Defs? && db.rows[k].data.DefData?
    ensures RefInside(db, k)
  {
    StructsInside(db.rows, k);
    if db.rows[k].data.structure.Some? {
      DefinitionStructSameEntry(db.rows, k);
      hide RefsInside, Root;
    }
  }

  lemma RelationInside(db: DB, k: Key)
    requires LinksOk(db) && k in db.rows && k.table.Rels? && db.rows[k].data.RelData?
    ensures RefInside(db, k)
  {
    hide Root;
    assert LinkOk(db, db.rows[k].data.target);
  }

  lemma RowInside(db: DB, k: Key)
    requires RowsFit(db.rows) && LinksOk(db) && RefsInside(db.rows) && k in db.rows
    ensures RefInside(db, k)
  {
    hide LinksOk, RefsInside, Root;
    assert Fits(k.table, db.rows[k].data);
    if k.table.Senses? {
      SenseInside(db, k);
    } else if k.table.Defs? {
      DefinitionInside(db, k);
    } else if k.table.Rels? {
      RelationInside(db, k);
    }
  }

  /**
   In every reachable state every row hangs off an entry, a sense's group is of its own entry, a
   definition's structure of its own pos, and a link to a sense goes with a link to the word
   that owns it.
   */
  lemma ReferencesAlwaysInside(run: seq<State>, i: nat, k: Key)
    requires IsRun(run) && i < |run| && k in run[i].db.rows
    ensures Root(run[i].db.rows, k).Some? && Root(run[i].db.rows, k).value in run[i].db.words
    ensures RefInside(run[i].db, k)
  {
    StoreAlwaysWellFormed(run, i);
    WFParts(run[i].db);
    hide IsRun, WF, Rooted, RowsFit, AllListed, LinksOk, RefsInside, UniqueOk, RefInside, Root;
    RootExists(run[i].db, k);
    RowInside(run[i].db, k);
  }

  /** A row that is there before and after a step belongs to the same entry. */
  lemma StepKeepsOwner(s: State, s': State, k: Key)
    requires Inv(s) && Next(s, s') && k in s.db.rows && k in s'.db.rows
    ensures Root(s'.db.rows, k) == Root(s.db.rows, k)
  {
    InvParts(s);
    hide Inv, WF, BeginSave, EndSave, BeginPublish, EndPublish, Creates, Deletes, Root;
    if r :| EndSave(s, s', r) {
      EndSaveOwner(s, s', r, k);
    } else if ws :| Deletes(s, s', ws) {
      DeletesOwner(s, s', ws, k);
    } else {
      QuietRows(s, s');
    }
  }

  lemma EndSaveOwner(s: State, s': State, r: nat, k: Key)
    requires Inv(s) && EndSave(s, s', r) && k in s.db.rows && k in s'.db.rows
    ensures Root(s'.db.rows, k) == Root(s.db.rows, k)
  {
    InvParts(s);
    RequestHeld(s, r);
    hide Inv, WF, Valid, Replaces, CanSave, Root, CompleteBody;
    if CanSave(s.db, s.requests[r].word, s.requests[r].body) {
      OwnerKept(s.db, s.requests[r].word, s.requests[r].body, s.clock, s'.db, k);
    }
  }

  lemma DeletesOwner(s: State, s': State, ws: set<Id>, k: Key)
    requires WF(s.db) && Deletes(s, s', ws) && k in s'.db.rows
    ensures Root(s'.db.rows, k) == Root(s.db.rows, k)
  {
    hide WF, DeleteWords, Root;
    DeletedRoot(s.db, ws, k);
  }

  lemma QuietRows(s: State, s': State)
    requires Next(s, s') && !(exists r :: EndSave(s, s', r)) && !(exists ws :: Deletes(s, s', ws))
    ensures s'.db.rows == s.db.rows
  {
    hide EndSave, Deletes, Valid, Normalized, PublishableBody, TreeOf, RowsFit;
  }

  /** While a node's row exists, the entry that owns it never changes. */
  lemma {:induction false} OwnerNeverChanges(run: seq<State>, i: nat, j: nat, k: Key)
    requires IsRun(run) && i <= j < |run| && forall m | i <= m <= j :: k in run[m].db.rows
    ensures Root(run[j].db.rows, k) == Root(run[i].db.rows, k)
  {
    hide Inv, Next, Start, Root;
    if i == j {
    } else {
      OwnerNeverChanges(run, i, j - 1, k);
      Reachable(run, j - 1);
      assert Next(run[j - 1], run[j - 1 + 1]);
      StepKeepsOwner(run[j - 1], run[j], k);
    }
  }

  // --- V10: what other entries can do to it, and what it means for an echo ---

  predicate TenthHolds(ps: seq<POS>) {
    forall p: nat | p < |ps| :: RelationsPicked(ps[p])
  }

  /** A live related word has a picked sense, and that sense is not among the dead. */
  predicate LinkAlive(r: Relation, dead: set<Key>) {
    r.target.word.Some? ==> r.target.sense.Some? && Key(Senses, r.target.sense.value) !in dead
  }

  predicate SenseAlive(s: Sense, dead: set<Key>) {
    forall k | 0 <= k < |s.relations| :: LinkAlive(s.relations[k], dead)
  }

  predicate TabAlive(p: POS, dead: set<Key>) {
    forall i | 0 <= i < |p.senses| :: SenseAlive(p.senses[i], dead)
  }

  predicate PickedAlive(ps: seq<POS>, dead: set<Key>) {
    forall p: nat | p < |ps| :: TabAlive(ps[p], dead)
  }

  lemma TenthIs(ps: seq<POS>)
    ensures TenthHolds(ps) <==> PickedAlive(ps, {})
  {
    forall p: nat | p < |ps| ensures RelationsPicked(ps[p]) <==> TabAlive(ps[p], {}) {
      TabPicked(ps[p]);
    }
    hide RelationsPicked, TabAlive;
  }

  lemma TabPicked(p: POS)
    ensures RelationsPicked(p) <==> TabAlive(p, {})
  {
    forall i | 0 <= i < |p.senses| ensures SensePicked(p.senses[i]) <==> SenseAlive(p.senses[i], {}) {
      SensePickedIs(p.senses[i]);
    }
    hide SensePicked, SenseAlive;
  }

  lemma SensePickedIs(s: Sense)
    ensures SensePicked(s) <==> SenseAlive(s, {})
  {
    assert forall k | 0 <= k < |s.relations| :: Picked(s.relations[k]) <==> LinkAlive(s.relations[k], {});
  }

  lemma UnlinkedPicked(x: Lost, ps: seq<POS>)
    requires x.words == {}
    ensures PickedAlive(UnlinkedTabs(x, ps), {}) <==> PickedAlive(ps, x.dead)
  {
    forall p: nat | p < |ps| ensures TabAlive(UnlinkedTabs(x, ps)[p], {}) <==> TabAlive(ps[p], x.dead) {
      UnlinkedTabPicked(x, ps[p]);
    }
    hide TabAlive;
  }

  lemma UnlinkedTabPicked(x: Lost, p: POS)
    requires x.words == {}
    ensures TabAlive(UnlinkedTab(x, p), {}) <==> TabAlive(p, x.dead)
  {
    forall i | 0 <= i < |p.senses| ensures SenseAlive(UnlinkedTab(x, p).senses[i], {}) <==> SenseAlive(p.senses[i], x.dead) {
      UnlinkedSensePicked(x, p.senses[i]);
    }
    hide SenseAlive, UnlinkedSense;
  }

  lemma UnlinkedSensePicked(x: Lost, s: Sense)
    requires x.words == {}
    ensures SenseAlive(UnlinkedSense(x, s), {}) <==> SenseAlive(s, x.dead)
  {
    var rs := UnlinkedSense(x, s).relations;
    assert forall k | 0 <= k < |rs| :: LinkAlive(rs[k], {}) <==> LinkAlive(s.relations[k], x.dead);
  }

  /**
   V10 is not kept by other entries' saves: it survives exactly when no picked sense of the
   entry is among those the save deletes.
   */
  lemma TenthAfterSave(db: DB, w: Id, b: SaveInput, now: Token, after: DB, v: Id)
    requires Saving(db, w, b, now, after) && v in db.words && v != w
    ensures RowsFit(db.rows) && RowsFit(after.rows) && v in after.words
    ensures TenthHolds(TreeOf(after, v).pos) <==> PickedAlive(TreeOf(db, v).pos, Gone(db, w, b))
  {
    hide Saving, TenthHolds, PickedAlive, TreeOf, RowsFit, Gone, UnlinkedTabs;
    OthersUntouched(db, w, b, now, after, v);
    UnlinkedPicked(Lost(Gone(db, w, b), {}), TreeOf(db, v).pos);
    TenthIs(TreeOf(after, v).pos);
  }

  lemma MeetsTenth(b: SaveInput)
    ensures Meets(V10, b.frequency, b.mode, b.dialects, b.pos) <==> TenthHolds(b.pos)
  {
    hide RelationsPicked;
    assert forall i: nat | i < |b.pos| ::
      PosMeets(V10, Allowed(b.mode, b.dialects), b.pos[i]) == RelationsPicked(b.pos[i]);
  }

  lemma CleanPicked(a: SaveInput, b: SaveInput)
    requires Clean(a, b)
    ensures PickedAlive(a.pos, {}) <==> PickedAlive(b.pos, {})
  {
    forall p: nat | p < |a.pos| ensures TabAlive(a.pos[p], {}) <==> TabAlive(b.pos[p], {}) {
      CleanTabPicked(a.pos[p], b.pos[p]);
    }
    hide TabAlive, CleanTab;
  }

  lemma CleanTabPicked(a: POS, b: POS)
    requires CleanTab(a, b)
    ensures TabAlive(a, {}) <==> TabAlive(b, {})
  {
    forall i | 0 <= i < |a.senses| ensures SenseAlive(a.senses[i], {}) <==> SenseAlive(b.senses[i], {}) {
      CleanSensePicked(a.senses[i], b.senses[i]);
    }
    hide SenseAlive, CleanSense;
  }

  lemma CleanSensePicked(a: Sense, b: Sense)
    requires CleanSense(a, b)
    ensures SenseAlive(a, {}) <==> SenseAlive(b, {})
  {
    forall k: nat | k < |a.relations| ensures LinkAlive(a.relations[k], {}) <==> LinkAlive(b.relations[k], {}) {
      assert b.relations[k] == NormalRelation(a.relations[k]);
    }
  }

  /** A complete entry, sent back as it came, passes the publish check exactly when V10 holds. */
  lemma PublishedEcho(t: Word)
    requires Valid(Echo(t)) && CompleteTree(t)
    ensures PublishableBody(Normalized(Echo(t))) <==> TenthHolds(t.pos)
  {
    var b := Normalized(Echo(t));
    hide Valid, Normalized, CompleteTree, CompleteBody, PublishableBody, Clean, Alike, TenthHolds, PickedAlive, Meets, NodesOk;
    ValidNormalized(Echo(t));
    NodesOkOf(Echo(t));
    CleanAlike(Echo(t), b);
    SameCompleteness(t);
    AlikeComplete(Echo(t), b);
    PublishableIs(b);
    MeetsTenth(b);
    TenthIs(b.pos);
    TenthIs(t.pos);
    CleanPicked(Echo(t), b);
  }
}
