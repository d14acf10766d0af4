/**
 The CHECK constraints of the schema (internal/platform/database/migrations/000018_create_words.up.sql)
 and the vocabularies the schema leaves to the program: no write of a run ever stores a value outside them.
 */
module WordChecks {
  import opened Basics
  import opened Frequency
  import opened WordModel
  import opened WordTables
  import opened WordValidation
  import opened WordPositions
  import opened WordBody
  import opened WordStore
  import opened WordSave
  import opened WordReplace
  import opened WordKids
  import opened WordInvariant
  import opened WordSaveInvariant
  import opened WordWrites
  import opened WordService

  predicate DialectOk(d: Dialect) {
    d == UK || d == US || d == Common
  }

  predicate StyleOk(s: Style) {
    s == NormalStyle || s == Strong || s == Weak
  }

  predicate LevelOk(l: Level) {
    l == A1 || l == A2 || l == B1 || l == B2 || l == C1 || l == C2
  }

  /** A percentage of at most six decimals and at most 100. */
  ghost predicate PercentOk(f: string) {
    exists v: nat :: v <= LIMIT && Denotes(f, v)
  }

  ghost predicate ColumnsOk(d: Data) {
    match d
    case GroupData(name) => |name| <= MAX_SHORT_FIELD
    case PosData(pos) => !pos.OtherPos?
    case FormData(dialect, formType, spelling) =>
      DialectOk(dialect) && !formType.OtherFormType? && |spelling| <= MAX_SHORT_FIELD
    case PronData(dict, actual, style) => |dict| <= MAX_SHORT_FIELD && |actual| <= MAX_SHORT_FIELD && StyleOk(style)
    case StructData => true
    case VariantData(dialect, content) => DialectOk(dialect) && content.version == RICH_TEXT_VERSION
    case SenseData(subPos, level, _, frequency, _) =>
      !subPos.OtherSubPos? && LevelOk(level) && (frequency.Some? ==> PercentOk(frequency.value))
    case DefData(level, defType, text, _) =>
      LevelOk(level) && (defType == ZH || defType == EN) && text.version == RICH_TEXT_VERSION
    case SentData(_, sentence) => sentence.Some? ==> sentence.value.version == RICH_TEXT_VERSION
    case RelData(relation, _, score) =>
      (relation == Synonym || relation == Antonym || relation == Derivative) && 0 <= score <= 100
  }

  ghost predicate WordOk(r: WordRow) {
    && (r.mode == Distinguish || r.mode == Unified) && (forall d | d in r.dialects :: d == UK || d == US)
    && (r.frequency.Some? ==> PercentOk(r.frequency.value))
  }

  ghost predicate ChecksHold(db: DB) {
    && (forall k | k in db.rows :: ColumnsOk(db.rows[k].data))
    && (forall w | w in db.words :: WordOk(db.words[w]))
  }

  // --- A valid body passes every check ---

  lemma StoredPercent(f: string)
    requires FrequencyOk(f)
    ensures Nullable(f).Some? ==> PercentOk(Nullable(f).value)
  {
    if f != "" {
      AcceptsExactly(f);
    }
  }

  lemma AllowedKnown(mode: DialectMode, dialects: seq<Dialect>)
    ensures forall d | d in AllowedSet(mode, dialects) :: DialectOk(d)
  {
  }

  lemma FormColumns(allowed: set<Dialect>, pos: Id, i: nat, f: Form, n: Node)
    requires FormOk(allowed, f) && FormHas(pos, i, f, n) && forall d | d in allowed :: DialectOk(d)
    ensures ColumnsOk(n.data)
  {
    if k: nat :| k < |f.pronunciations| && n == PronN(f.id, k, f.pronunciations[k]) {
      assert PronOk(f.pronunciations[k]);
    }
  }

  lemma StructColumns(allowed: set<Dialect>, pos: Id, i: nat, g: GrammarStructure, n: Node)
    requires StructOk(allowed, g) && StructHas(pos, i, g, n) && forall d | d in allowed :: DialectOk(d)
    ensures ColumnsOk(n.data)
  {
    if k: nat :| k < |g.variants| && n == VariantN(g.id, k, g.variants[k]) {
      assert VariantOk(allowed, g.variants[k]);
    }
  }

  lemma SenseColumns(groups: set<Id>, structs: set<Id>, pos: Id, i: nat, s: Sense, n: Node)
    requires SenseOk(groups, structs, s) && SenseHas(pos, i, s, n)
    ensures ColumnsOk(n.data)
  {
    StoredPercent(s.frequency);
    hide FrequencyOk, PercentOk, Nullable;
    if k: nat :| k < |s.definitions| && n == DefN(s.id, k, s.definitions[k]) {
      assert DefinitionOk(structs, s.definitions[k]);
    } else if k: nat :| k < |s.sentences| && n == SentN(s.id, k, s.sentences[k]) {
      assert SentenceOk(s.sentences[k]);
    } else if k: nat :| k < |s.relations| && n == RelN(s.id, k, s.relations[k]) {
      assert RelationOk(s.relations[k]);
    }
  }

  lemma TabColumns(allowed: set<Dialect>, groups: set<Id>, i: nat, p: POS, n: Node)
    requires PosOk(allowed, groups, p) && PosHas(i, p, n) && forall d | d in allowed :: DialectOk(d)
    ensures ColumnsOk(n.data)
  {
    hide FormOk, StructOk, SenseOk, FormHas, StructHas, SenseHas, DialectOk, ColumnsOk;
    if n == PosN(i, p) {
      PosColumns(i, p);
    } else if k: nat :| k < |p.forms| && FormHas(p.id, k, p.forms[k], n) {
      FormColumns(allowed, p.id, k, p.forms[k], n);
    } else if k: nat :| k < |p.structures| && StructHas(p.id, k, p.structures[k], n) {
      StructColumns(allowed, p.id, k, p.structures[k], n);
    } else {
      var k: nat :| k < |p.senses| && SenseHas(p.id, k, p.senses[k], n);
      SenseColumns(groups, StructIds(p.structures), p.id, k, p.senses[k], n);
    }
  }

  lemma PosColumns(i: nat, p: POS)
    requires !p.pos.OtherPos?
    ensures ColumnsOk(PosN(i, p).data)
  {
  }

  /** No statement of a save can violate a column check. */
  lemma NodeColumns(b: SaveInput, n: Node)
    requires NodesOk(b) && n in Doc(b)
    ensures ColumnsOk(n.data)
  {
    InDoc(b, n);
    AllowedKnown(b.mode, b.dialects);
    hide Doc, IdsOk, PosOk, PosHas, DialectOk, AllowedSet;
    if i: nat :| i < |b.groups| && n == GroupN(i, b.groups[i]) {
      assert GroupOk(b.groups[i]);
    } else {
      var p: nat :| p < |b.pos| && PosHas(p, b.pos[p], n);
      TabColumns(AllowedSet(b.mode, b.dialects), GroupIds(b.groups), p, b.pos[p], n);
    }
  }

  lemma RootColumns(r: WordRow, b: SaveInput, now: Token)
    requires Valid(b)
    ensures WordOk(UpdatedRoot(r, b, now))
  {
    StoredPercent(b.frequency);
    hide NodesOk, FrequencyOk, PercentOk, Nullable;
  }

  // --- Every write keeps the checks ---

  lemma UnlinkedColumns(d: Data, dead: set<Key>, ws: set<Id>)
    ensures ColumnsOk(Unlinked(d, dead, ws)) <==> ColumnsOk(d)
  {
  }

  lemma SavedColumns(db: DB, w: Id, b: SaveInput, rows: Rows, n: Node)
    requires ColumnsOk(n.data)
    ensures ColumnsOk(SavedRow(db, w, b, rows, n).data)
  {
    hide SavedLink, KeptAudio;
  }

  lemma SaveChecks(db: DB, w: Id, b: SaveInput, now: Token, after: DB)
    requires ChecksHold(db) && Valid(b) && Replaces(db, w, b, now, after)
    ensures ChecksHold(after)
  {
    RootColumns(db.words[w], b, now);
    hide Valid, Doc, SavedRow, Unlinked, ColumnsOk, WordOk, UpdatedRoot, Root;
    forall k | k in after.rows ensures ColumnsOk(after.rows[k].data) {
      if k in Incoming(b) {
        var n :| n in Doc(b) && KeyOf(n) == k;
        ValidNodes(b);
        NodeColumns(b, n);
        SavedColumns(db, w, b, after.rows, n);
      } else {
        UnlinkedColumns(db.rows[k].data, Gone(db, w, b), {});
      }
    }
  }

  lemma ValidNodes(b: SaveInput)
    requires Valid(b)
    ensures NodesOk(b)
  {
    hide NodesOk;
  }

  lemma DeleteChecks(db: DB, ws: set<Id>)
    requires ChecksHold(db)
    ensures ChecksHold(DeleteWords(db, ws))
  {
    hide Unlinked, ColumnsOk, WordOk, Root;
    forall k | k in DeleteWords(db, ws).rows ensures ColumnsOk(DeleteWords(db, ws).rows[k].data) {
      UnlinkedColumns(db.rows[k].data, WordStore.Under(db.rows, ws), ws);
    }
  }

  lemma StepChecks(s: State, s': State)
    requires Inv(s) && ChecksHold(s.db) && Next(s, s')
    ensures ChecksHold(s'.db)
  {
    hide Inv, BeginSave, EndSave, BeginPublish, EndPublish, Creates, Deletes, ChecksHold;
    if r :| EndSave(s, s', r) {
      EndSaveChecks(s, s', r);
    } else if r :| EndPublish(s, s', r) {
      EndPublishChecks(s, s', r);
    } else if w, kind, headword, author :| Creates(s, s', w, kind, headword, author) {
      CreatesChecks(s, s', w, kind, headword, author);
    } else if ws :| Deletes(s, s', ws) {
      DeletesChecks(s, s', ws);
    } else if r, w, input :| BeginSave(s, s', r, w, input) {
      BeginSaveSame(s, s', r, w, input);
    } else {
      var r, w :| BeginPublish(s, s', r, w);
      BeginPublishSame(s, s', r, w);
    }
  }

  lemma EndSaveChecks(s: State, s': State, r: nat)
    requires Inv(s) && ChecksHold(s.db) && EndSave(s, s', r)
    ensures ChecksHold(s'.db)
  {
    RequestHeld(s, r);
    hide Inv, Valid, CanSave, Replaces, ChecksHold, CompleteBody;
    var w, b := s.requests[r].word, s.requests[r].body;
    if CanSave(s.db, w, b) {
      SaveChecks(s.db, w, b, s.clock, s'.db);
    }
  }

  lemma EndPublishChecks(s: State, s': State, r: nat)
    requires ChecksHold(s.db) && EndPublish(s, s', r)
    ensures ChecksHold(s'.db)
  {
    hide ColumnsOk;
  }

  lemma CreatesChecks(s: State, s': State, w: Id, kind: Kind, headword: string, author: Id)
    requires ChecksHold(s.db) && Creates(s, s', w, kind, headword, author)
    ensures ChecksHold(s'.db)
  {
    hide ColumnsOk;
  }

  lemma DeletesChecks(s: State, s': State, ws: set<Id>)
    requires ChecksHold(s.db) && Deletes(s, s', ws)
    ensures ChecksHold(s'.db)
  {
    hide ChecksHold, DeleteWords;
    DeleteChecks(s.db, ws);
  }

  lemma BeginSaveSame(s: State, s': State, r: nat, w: Id, input: SaveInput)
    requires BeginSave(s, s', r, w, input)
    ensures s'.db == s.db
  {
    hide Valid, Normalized, PublishableBody;
  }

  lemma BeginPublishSame(s: State, s': State, r: nat, w: Id)
    requires BeginPublish(s, s', r, w)
    ensures s'.db == s.db
  {
    hide PublishableBody;
  }

  /** In every state of every run, every column holds a value its constraint or vocabulary allows. */
  lemma {:induction false} StoreAlwaysChecked(run: seq<State>, i: nat)
    requires IsRun(run) && i < |run|
    ensures ChecksHold(run[i].db)
  {
    hide Next, Inv;
    if i == 0 {
    } else {
      StoreAlwaysChecked(run, i - 1);
      Reachable(run, i - 1);
      assert Next(run[i - 1], run[i - 1 + 1]);
      StepChecks(run[i - 1], run[i]);
    }
  }
}
