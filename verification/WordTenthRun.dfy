/**
 A run of the service in which a published entry that met every rule stops meeting V10: the entry
 whose sense it picked is saved without that sense.
 */
module WordTenthRun {
  import opened Basics
  import opened Text
  import opened Frequency
  import opened WordModel
  import opened WordTables
  import opened WordValidation
  import opened WordPublish
  import opened WordStore
  import opened WordRead
  import opened WordAlike
  import opened WordReplace
  import opened WordInvariant
  import opened WordFrame
  import opened WordRoundTrip
  import opened WordGloss
  import opened WordSave
  import opened WordSaveProof
  import opened WordSaveInvariant
  import opened WordWrites
  import opened WordEcho
  import opened WordRepository
  import opened WordService
  import opened WordTenth

  // --- Requests that run alone ---

  lemma Extended(run: seq<State>, s: State)
    requires IsRun(run) && Next(run[|run| - 1], s)
    ensures IsRun(run + [s])
  {
    hide Next, Start;
    var more := run + [s];
    forall i | 0 <= i < |more| - 1 ensures Next(more[i], more[i + 1]) {
      if i < |run| - 1 {
        assert Next(run[i], run[i + 1]);
      }
    }
  }

  lemma ExtendedTwice(run: seq<State>, mid: State, end: State)
    requires IsRun(run) && Next(run[|run| - 1], mid) && Next(mid, end)
    ensures IsRun(run + [mid, end])
  {
    hide Next, Start;
    Extended(run, mid);
    Extended(run + [mid], end);
    assert run + [mid] + [end] == run + [mid, end];
  }

  function Saved(s: State, w: Id, b: SaveInput, after: DB): State {
    State(after, s.clock + 1, s.requests, s.log + [Write(w, b.base, s.clock)])
  }

  function Waiting(s: State, q: Request): State {
    s.(requests := map[0 := q])
  }

  lemma SaveBegins(s: State, w: Id, b: SaveInput)
    requires s.requests == map[] && Valid(b) && Normalized(b) == b && b.base < s.clock
    requires w in s.db.words && s.db.words[w].status == Draft
    ensures Next(s, Waiting(s, SaveRequest(w, b)))
  {
    hide Valid, Normalized, PublishableBody;
    assert s.requests[0 := SaveRequest(w, b)] == map[0 := SaveRequest(w, b)];
    assert BeginSave(s, Waiting(s, SaveRequest(w, b)), 0, w, b);
    hide BeginSave;
  }

  lemma SaveEnds(s: State, w: Id, b: SaveInput, after: DB)
    requires s.requests == map[] && CanSave(s.db, w, b) && Replaces(s.db, w, b, s.clock, after)
    ensures Next(Waiting(s, SaveRequest(w, b)), Saved(s, w, b, after))
  {
    hide CanSave, Replaces;
    var mid := Waiting(s, SaveRequest(w, b));
    assert mid.requests - {0} == map[];
    assert EndSave(mid, Saved(s, w, b, after), 0);
    hide EndSave;
  }

  /** A save of a draft, from its reads to its write. */
  lemma SaveAlone(run: seq<State>, w: Id, b: SaveInput, after: DB) returns (more: seq<State>)
    requires IsRun(run) && run[|run| - 1].requests == map[]
    requires var s := run[|run| - 1];
      && Saving(s.db, w, b, s.clock, after) && Normalized(b) == b && b.base < s.clock
      && w in s.db.words && s.db.words[w].status == Draft
    ensures IsRun(more) && |more| == |run| + 2 && run <= more
    ensures more[|more| - 1] == Saved(run[|run| - 1], w, b, after)
  {
    var s := run[|run| - 1];
    SaveSteps(s, w, b, after);
    more := run + [Waiting(s, SaveRequest(w, b)), Saved(s, w, b, after)];
    hide IsRun, Next, Saving, Waiting, Saved, Normalized;
    ExtendedTwice(run, Waiting(s, SaveRequest(w, b)), Saved(s, w, b, after));
  }

  lemma SaveSteps(s: State, w: Id, b: SaveInput, after: DB)
    requires s.requests == map[] && Saving(s.db, w, b, s.clock, after) && Normalized(b) == b && b.base < s.clock
    requires w in s.db.words && s.db.words[w].status == Draft
    ensures Next(s, Waiting(s, SaveRequest(w, b)))
    ensures Next(Waiting(s, SaveRequest(w, b)), Saved(s, w, b, after))
  {
    hide WF, Valid, CanSave, Replaces, Normalized, Next, Waiting, Saved;
    SaveBegins(s, w, b);
    SaveEnds(s, w, b, after);
  }

  function Flipped(s: State, w: Id): State
    requires w in s.db.words
  {
    State(StatusSet(s.db, w, Published, s.clock), s.clock + 1, s.requests, s.log + [Write(w, s.db.words[w].token, s.clock)])
  }

  lemma PublishAlone(run: seq<State>, w: Id) returns (more: seq<State>)
    requires IsRun(run) && run[|run| - 1].requests == map[]
    requires var db := run[|run| - 1].db;
      RowsFit(db.rows) && w in db.words && PublishableBody(Echo(TreeOf(db, w)))
    ensures IsRun(more) && |more| == |run| + 2 && run <= more
    ensures more[|more| - 1] == Flipped(run[|run| - 1], w)
  {
    var s := run[|run| - 1];
    TreeToken(s.db, w);
    hide IsRun, RowsFit, TreeOf, PublishableBody, StatusSet, Echo;
    var base := s.db.words[w].token;
    var mid := s.(requests := map[0 := PublishRequest(w, base)]);
    var end := Flipped(s, w);
    assert s.requests[0 := PublishRequest(w, base)] == mid.requests;
    assert BeginPublish(s, mid, 0, w);
    assert mid.requests - {0} == s.requests;
    assert EndPublish(mid, end, 0);
    assert Next(s, mid) && Next(mid, end);
    hide Next, BeginPublish, EndPublish;
    ExtendedTwice(run, mid, end);
    more := run + [mid, end];
  }

  // --- The two entries ---

  const ONE: string := "1.000000"
  const LETTER := RichText(RICH_TEXT_VERSION, "a", Some([]), Some([]))

  /** Entry 1: one part of speech, with sense 11. */
  const TARGET_TAB := POS(10, Noun, [], [], [Sense(11, NoSubPos, A1, None, "", false, [], [], [])])
  const TARGET_BODY := SaveInput(1, "", Unified, [], [], [TARGET_TAB])

  /** Entry 2: as little as a published entry can have, and a relation that picks sense 11. */
  const PRON := Pronunciation(22, "a", "a", NormalStyle, SILENT)
  const FORM := Form(21, Common, Base, "a", [PRON])
  const STRUCT := GrammarStructure(23, [GrammarVariant(24, Common, LETTER, SILENT)])
  const MEANING := Definition(26, A1, ZH, LETTER, None, SILENT)
  const RELATED := Relation(27, Synonym, Link(Some(1), Some(11), "", ""), 0)
  const SENSE := Sense(25, NCount, A1, None, ONE, false, [MEANING], [], [RELATED])
  const PICKER_TAB := POS(20, Noun, [FORM], [STRUCT], [SENSE])
  const PICKER_BODY := SaveInput(2, ONE, Unified, [], [], [PICKER_TAB])

  lemma FlatOne<T, N>(ctx: Id, x: T, f: (Id, nat, T) -> seq<N>)
    ensures Flat(ctx, [x], f) == f(ctx, 0, x)
  {
    assert [x][..0] == [];
  }

  lemma MapOne<T, U>(x: T, f: T -> U)
    ensures Map([x], f) == [f(x)]
  {
  }

  lemma OneFrequency()
    ensures NormalizeFrequency(ONE) == Ok(ONE)
  {
    TrimmedFixed(ONE);
    hide TrimSpace;
    assert ONE == "1" + "." + "000000";
    assert ONE[1..] == ".000000" && ".000000"[1..] == "000000";
    assert Cut(".000000") == ("", "000000");
    assert [ONE[0]] + "" == "1";
    assert Cut(ONE) == ("1", "000000");
    assert Zeros(0) == "" && "000000" + "" == "000000";
    assert StripZeros("1") == "1";
    assert AllDigits("1") && AllDigits("000000");
    assert NormalizeFrequency(ONE) == Ok("1" + "." + "000000");
  }

  lemma LetterOk()
    ensures TrimSpace("a") == "a" && StoredText(LETTER) && !Blank(LETTER) && NormalText(LETTER) == LETTER
  {
    TrimmedFixed("a");
  }

  lemma TargetNodes()
    ensures Doc(TARGET_BODY) == [PosN(0, TARGET_TAB), SenseN(10, 0, TARGET_TAB.senses[0])]
  {
    FlatOne(NIL, TARGET_TAB, PosDocNodes);
    FlatOne(10, TARGET_TAB.senses[0], SenseDocNodes);
  }

  lemma TargetNormal()
    ensures Normalized(TARGET_BODY) == TARGET_BODY
  {
    MapOne(TARGET_TAB, NormalPos);
    MapOne(TARGET_TAB.senses[0], NormalSense);
    hide NormalizeFrequency;
  }

  lemma TargetValid()
    ensures Valid(TARGET_BODY)
  {
    TargetNodes();
    hide Doc, NormalizeFrequency;
    assert IdsOk(Doc(TARGET_BODY));
    hide IdsOk;
    assert SenseOk({}, {}, TARGET_TAB.senses[0]);
  }

  function PickerNodes(): seq<Node> {
    [PosN(0, PICKER_TAB), FormN(20, 0, FORM), PronN(21, 0, PRON), StructN(20, 0, STRUCT),
     VariantN(23, 0, STRUCT.variants[0]), SenseN(20, 0, SENSE), DefN(25, 0, MEANING), RelN(25, 0, RELATED)]
  }

  lemma PickerDoc()
    ensures Doc(PICKER_BODY) == PickerNodes()
  {
    FlatOne(NIL, PICKER_TAB, PosDocNodes);
    FlatOne(20, FORM, FormNodes);
    FlatOne(21, PRON, PronNodes);
    FlatOne(20, STRUCT, StructNodes);
    FlatOne(23, STRUCT.variants[0], VariantNodes);
    FlatOne(20, SENSE, SenseDocNodes);
    FlatOne(25, MEANING, DefNodes);
    FlatOne(25, RELATED, RelNodes);
  }

  lemma PickerNormal()
    ensures Normalized(PICKER_BODY) == PICKER_BODY
  {
    OneFrequency();
    LetterOk();
    hide TrimSpace, NormalizeFrequency;
    MapOne(PICKER_TAB, NormalPos);
    MapOne(FORM, WordValidation.NormalForm);
    MapOne(PRON, NormalPron);
    MapOne(STRUCT, NormalStruct);
    MapOne(STRUCT.variants[0], NormalVariant);
    MapOne(SENSE, NormalSense);
    MapOne(MEANING, NormalDefinition);
    MapOne(RELATED, NormalRelation);
    hide Map;
    assert NormalSense(SENSE) == SENSE;
    assert WordValidation.NormalForm(FORM) == FORM;
    assert NormalStruct(STRUCT) == STRUCT;
    assert NormalPos(PICKER_TAB) == PICKER_TAB;
  }

  lemma PickerIds()
    ensures IdsOk(Doc(PICKER_BODY))
  {
    PickerDoc();
    hide Doc;
    var ns := PickerNodes();
    assert forall i | 0 <= i < |ns| :: ns[i].id == 20 + i;
  }

  lemma PickerValid()
    ensures Valid(PICKER_BODY)
  {
    OneFrequency();
    LetterOk();
    PickerIds();
    hide TrimSpace, NormalizeFrequency, IdsOk, Doc, StoredText;
    var allowed := AllowedSet(Unified, []);
    assert Common in Allowed(Unified, []) && Common in allowed;
    assert FormOk(allowed, FORM);
    assert StructOk(allowed, STRUCT);
    assert SenseOk({}, StructIds(PICKER_TAB.structures), SENSE);
  }

  lemma PickerComplete()
    ensures CompleteBody(PICKER_BODY)
  {
    OneFrequency();
    LetterOk();
    hide TrimSpace, NormalizeFrequency, StoredText;
    var p := PICKER_TAB;
    assert Allowed(Unified, []) == [Common];
    assert OneBase(p.forms, Common) by {
      assert IsBase(p.forms[0], Common);
    }
    assert FormComplete(FORM);
    assert WordingOk(STRUCT.variants, Common) by {
      assert LastOf(STRUCT.variants, Common, 0) && !Blank(STRUCT.variants[0].content);
    }
    assert StructComplete([Common], STRUCT);
    assert Worded(SENSE);
    hide OneBase, FormComplete, StructComplete, Worded, IsBase, LastOf, WordingOk;
    forall rule: Rule | !rule.V10? ensures PosMeets(rule, [Common], p) {
    }
  }

  // --- The run ---

  const SHELL_ONE := Shell(SingleWord, "target", 7, 1)
  const SHELL_TWO := Shell(SingleWord, "picker", 7, 2)

  lemma Shells() returns (run: seq<State>)
    ensures IsRun(run) && |run| == 3
    ensures var s := run[2];
      && s.requests == map[] && s.clock == 3 && s.db == DB(map[1 := SHELL_ONE, 2 := SHELL_TWO], map[])
  {
    var s0 := State(DB(map[], map[]), 1, map[], []);
    var s1 := State(DB(map[1 := SHELL_ONE], map[]), 2, map[], [Write(1, ZERO_TIME, 1)]);
    var s2 := State(DB(map[1 := SHELL_ONE, 2 := SHELL_TWO], map[]), 3, map[], [Write(1, ZERO_TIME, 1), Write(2, ZERO_TIME, 2)]);
    assert s0.db.words[1 := SHELL_ONE] == s1.db.words && s0.log + [Write(1, ZERO_TIME, 1)] == s1.log;
    assert Creates(s0, s1, 1, SingleWord, "target", 7);
    assert s1.db.words[2 := SHELL_TWO] == s2.db.words && s1.log + [Write(2, ZERO_TIME, 2)] == s2.log;
    assert Creates(s1, s2, 2, SingleWord, "picker", 7);
    assert Next(s0, s1) && Next(s1, s2);
    hide Next;
    run := [s0, s1, s2];
  }

  lemma Stores(db: DB, w: Id, b: SaveInput, now: Token) returns (after: DB)
    requires WF(db) && Valid(b) && CanSave(db, w, b) && now != ZERO_TIME
    ensures Saving(db, w, b, now, after)
  {
    SaveBase(db, w, b);
    hide WF, Valid, CanSave, Replaces, Blames, Run, FirstRun, UniqueOk, KeepsHeadwords;
    SaveMeaning(db, w, b, now);
    after := Run(FirstRun(db, w, b, now), w, Owned(db.rows, w), SecondPass(b)).value;
  }

  lemma TargetCanSave(db: DB)
    requires db.rows == map[] && 1 in db.words && db.words[1].token == 1
    ensures CanSave(db, 1, TARGET_BODY)
  {
    TargetNodes();
    hide Doc;
  }

  /** Once the target entry is saved, sense 11 is its own, and other ids are free. */
  lemma TargetSaved(db: DB, now: Token, after: DB)
    requires db.rows == map[] && Replaces(db, 1, TARGET_BODY, now, after)
    ensures after.words == db.words[1 := UpdatedRoot(db.words[1], TARGET_BODY, now)]
    ensures Root(after.rows, Key(Senses, 11)) == Some(1)
    ensures forall k | k in after.rows :: k == Key(Pos, 10) || k == Key(Senses, 11)
  {
    TargetNodes();
    hide Doc;
    var ns := Doc(TARGET_BODY);
    assert ns[0] in ns && ns[1] in ns;
    forall k | k in Incoming(TARGET_BODY) ensures k == Key(Pos, 10) || k == Key(Senses, 11) {
      InKeySet(ns, ns[0]);
    }
  }

  lemma PickerCanSave(db: DB)
    requires 1 in db.words && 2 in db.words && db.words[2].token == 2
    requires Root(db.rows, Key(Senses, 11)) == Some(1)
    requires forall k | k in db.rows :: k == Key(Pos, 10) || k == Key(Senses, 11)
    ensures CanSave(db, 2, PICKER_BODY)
  {
    PickerDoc();
    hide Doc, Root;
    forall n | n in Doc(PICKER_BODY) ensures n.id >= 20 {
    }
  }

  lemma PickerServed(db: DB, now: Token, after: DB)
    requires Saving(db, 2, PICKER_BODY, now, after)
    ensures RowsFit(after.rows) && 2 in after.words
    ensures PublishableBody(Echo(TreeOf(after, 2))) && Picks(TreeOf(after, 2).pos, 1)
  {
    SavingParts(db, 2, PICKER_BODY, now, after);
    WFParts(db);
    PickerComplete();
    hide WF, Valid, NodesOk, CanSave, Replaces, Rooted, RowsFit, AllListed, LinksOk, RefsInside, UniqueOk, CompleteBody,
      PublishableBody, FrequencyOk, Alike, TreeOf, Picks, ServedTabs;
    RoundTrip(db, 2, PICKER_BODY, now, after);
    var o := Origin(db, 2, PICKER_BODY, after.rows);
    var b := Echo(ServedTree(o, now));
    ServedAlike(o, now);
    AlikeComplete(PICKER_BODY, b);
    ServedPick(o);
    PublishableIs(b);
    MeetsTenth(b);
  }

  lemma ServedPick(o: Origin)
    ensures TenthHolds(ServedTabs(o, [PICKER_TAB])) && Picks(ServedTabs(o, [PICKER_TAB]), 1)
  {
    hide GlossAt, StoredTarget, HeadwordOf, Owned;
    var ps := ServedTabs(o, [PICKER_TAB]);
    assert ps == [ServedTab(o, PICKER_TAB)];
    assert ps[0].senses == [ServedSense(o, SENSE)];
    assert ps[0].senses[0].relations == [ServedRel(o, RELATED)];
    assert PicksFrom(ps[0].senses[0].relations[0], 1);
    assert PickAt(ps, 0, 0, 0, 1);
    assert SensePicked(ps[0].senses[0]);
  }

  /** A published entry that meets every rule. */
  ghost predicate InOrder(db: DB, v: Id) {
    && RowsFit(db.rows) && v in db.words && db.words[v].status == Published
    && PublishableBody(Echo(TreeOf(db, v)))
  }

  /** The last state of a run, with no request under way. */
  ghost predicate EndsIn(run: seq<State>, s: State) {
    IsRun(run) && run[|run| - 1] == s && s.requests == map[]
  }

  lemma EndWF(run: seq<State>, s: State)
    requires EndsIn(run, s)
    ensures WF(s.db) && s.clock != ZERO_TIME && TokensOld(s)
  {
    Reachable(run, |run| - 1);
    InvParts(s);
    hide Inv, WF, IsRun, TokensOld;
  }

  /** The target entry is there with sense 11, the other one empty. */
  lemma TargetStored() returns (run: seq<State>, s: State)
    ensures EndsIn(run, s) && s.clock == 4
    ensures 1 in s.db.words && s.db.words[1].status == Draft && 2 in s.db.words && s.db.words[2] == SHELL_TWO
    ensures Root(s.db.rows, Key(Senses, 11)) == Some(1)
    ensures forall k | k in s.db.rows :: k == Key(Pos, 10) || k == Key(Senses, 11)
  {
    var shells := Shells();
    var t := shells[2];
    assert EndsIn(shells, t);
    EndWF(shells, t);
    TargetCanSave(t.db);
    TargetValid();
    TargetNormal();
    hide IsRun, WF, TokensOld, Valid, CanSave, Replaces, Normalized, Root;
    var after := Stores(t.db, 1, TARGET_BODY, 3);
    TargetSaved(t.db, 3, after);
    run := SaveAlone(shells, 1, TARGET_BODY, after);
    s := Saved(t, 1, TARGET_BODY, after);
  }

  /** The other entry is there too, complete, with its pick. */
  lemma PickerStored() returns (run: seq<State>, s: State)
    ensures EndsIn(run, s)
    ensures 1 in s.db.words && s.db.words[1].status == Draft && 2 in s.db.words
    ensures RowsFit(s.db.rows) && PublishableBody(Echo(TreeOf(s.db, 2))) && Picks(TreeOf(s.db, 2).pos, 1)
  {
    var before, t := TargetStored();
    EndWF(before, t);
    PickerNormal();
    hide IsRun, WF, TokensOld, Saving, Normalized, Root, RowsFit, TreeOf, Picks, PublishableBody;
    var after := PickerSaved(t.db);
    run := SaveAlone(before, 2, PICKER_BODY, after);
    s := Saved(t, 2, PICKER_BODY, after);
  }

  lemma PickerSaved(db: DB) returns (after: DB)
    requires WF(db) && 1 in db.words && 2 in db.words && db.words[2] == SHELL_TWO
    requires Root(db.rows, Key(Senses, 11)) == Some(1)
    requires forall k | k in db.rows :: k == Key(Pos, 10) || k == Key(Senses, 11)
    ensures Saving(db, 2, PICKER_BODY, 4, after) && 1 in after.words && after.words[1] == db.words[1] && 2 in after.words
    ensures RowsFit(after.rows) && PublishableBody(Echo(TreeOf(after, 2))) && Picks(TreeOf(after, 2).pos, 1)
  {
    PickerCanSave(db);
    PickerValid();
    hide WF, Valid, CanSave, Root, RowsFit, TreeOf, Picks, PublishableBody, Saving;
    after := Stores(db, 2, PICKER_BODY, 4);
    PickerServed(db, 4, after);
    PickerOther(db, after);
  }

  lemma PickerOther(db: DB, after: DB)
    requires Saving(db, 2, PICKER_BODY, 4, after) && 1 in db.words
    ensures 1 in after.words && after.words[1] == db.words[1]
  {
    hide WF, Valid, CanSave, BodyStored, OthersKept;
  }

  lemma PickerPublished() returns (run: seq<State>, s: State)
    ensures EndsIn(run, s) && RowsFit(s.db.rows) && 2 in s.db.words
    ensures InOrder(s.db, 2) && Picks(TreeOf(s.db, 2).pos, 1)
    ensures 1 in s.db.words && s.db.words[1].status == Draft
  {
    var before, t := PickerStored();
    hide IsRun, RowsFit, TreeOf, Picks, Publishable;
    run := PublishAlone(before, 2);
    s := Flipped(t, 2);
    FlippedTree(t.db, 2, Published, t.clock);
  }

  lemma EmptiedNormal(db: DB, w: Id)
    requires WF(db) && w in db.words
    ensures Normalized(Emptied(db.words[w])) == Emptied(db.words[w])
  {
    EmptiedValid(db, w);
    hide WF, NodesOk, ModeOk, NormalizeFrequency;
  }

  lemma InOrderTenth(db: DB, v: Id)
    requires InOrder(db, v)
    ensures RowsFit(db.rows) && v in db.words && TenthHolds(TreeOf(db, v).pos)
  {
    hide RowsFit, TreeOf;
    PublishableIs(Echo(TreeOf(db, v)));
    MeetsTenth(Echo(TreeOf(db, v)));
    hide PublishableBody, TenthHolds, CompleteBody, Meets;
  }

  /**
   The run: entry 2 is published and meets every rule, picking a sense of entry 1; entry 1 is then saved
   without that sense, and entry 2, untouched and still published, no longer meets V10.
   */
  lemma PublishedLosesTenth() returns (run: seq<State>, k: nat)
    ensures IsRun(run) && k < |run| && InOrder(run[k].db, 2)
    ensures var db := run[|run| - 1].db;
      2 in db.words && db.words[2] == run[k].db.words[2] && TenthFails(db, 2)
  {
    hide *;
    var before, s := PickerPublished();
    EndParts(before, s);
    EndWF(before, s);
    var after := PickLost(s);
    run := SaveAlone(before, 1, Emptied(s.db.words[1]), after);
    k := |before| - 1;
    SavedDB(s, 1, Emptied(s.db.words[1]), after);
  }

  lemma EndParts(run: seq<State>, s: State)
    requires EndsIn(run, s)
    ensures IsRun(run) && run != [] && run[|run| - 1] == s && s.requests == map[]
  {
    hide Next, Start;
  }

  lemma SavedDB(s: State, w: Id, b: SaveInput, after: DB)
    ensures Saved(s, w, b, after).db == after
  {
  }

  lemma PickLost(s: State) returns (after: DB)
    requires WF(s.db) && s.clock != ZERO_TIME && TokensOld(s)
    requires 1 in s.db.words && 2 in s.db.words && Picks(TreeOf(s.db, 2).pos, 1)
    ensures var b := Emptied(s.db.words[1]);
      Saving(s.db, 1, b, s.clock, after) && Normalized(b) == b && b.base < s.clock
    ensures 2 in after.words && after.words[2] == s.db.words[2] && TenthFails(after, 2)
  {
    EmptiedNormal(s.db, 1);
    hide WF, Saving, Picks, TreeOf, RowsFit, Normalized, TenthFails, Emptied;
    after := EmptyingBreaks(s.db, 1, 2, s.clock);
    EmptiedOther(s.db, 1, s.clock, after);
  }

  lemma EmptiedOther(db: DB, w: Id, now: Token, after: DB)
    requires w in db.words && Saving(db, w, Emptied(db.words[w]), now, after)
    ensures after.words.Keys == db.words.Keys && forall v | v in db.words && v != w :: after.words[v] == db.words[v]
    ensures Emptied(db.words[w]).base == db.words[w].token
  {
    hide WF, Valid, CanSave, BodyStored, OthersKept;
  }
}
