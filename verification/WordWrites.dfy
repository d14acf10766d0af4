/**
 The other writes of the store (internal/word/repository.go): creating a shell, flipping the
 status, deleting entries. Each keeps the invariant and leaves all other entries alone.
 */
module WordWrites {
  import opened Basics
  import opened LikePattern
  import opened WordModel
  import opened WordTables
  import opened WordValidation
  import opened WordStore
  import opened WordRead
  import opened WordAlike
  import opened WordReplace
  import opened WordInvariant
  import opened WordFrame
  import opened WordSaveInvariant

  // --- Creating and publishing touch only the word row ---

  function Shell(kind: Kind, headword: string, author: Id, now: Token): WordRow {
    WordRow(kind, headword, None, Unified, [], Draft, author, now)
  }

  function Created(db: DB, w: Id, row: WordRow): DB {
    db.(words := db.words[w := row])
  }

  /** words_headword_kind_unique: lower(headword) and kind; lower maps characters by fold. */
  predicate Taken(db: DB, fold: char -> char, headword: string, kind: Kind) {
    exists v | v in db.words :: Fold(fold, db.words[v].headword) == Fold(fold, headword) && db.words[v].kind == kind
  }

  predicate HeadwordsUnique(db: DB, fold: char -> char) {
    forall v, w | v in db.words && w in db.words && Fold(fold, db.words[v].headword) == Fold(fold, db.words[w].headword)
      && db.words[v].kind == db.words[w].kind :: v == w
  }

  lemma CreateKeepsUnique(db: DB, fold: char -> char, w: Id, row: WordRow)
    requires HeadwordsUnique(db, fold) && w !in db.words && !Taken(db, fold, row.headword, row.kind)
    ensures HeadwordsUnique(Created(db, w, row), fold)
  {
  }

  ghost predicate KeepsHeadwords(db: DB, after: DB) {
    forall v | v in after.words :: v in db.words && SameHeadword(db.words[v], after.words[v])
  }

  predicate SameHeadword(a: WordRow, b: WordRow) {
    a.headword == b.headword && a.kind == b.kind
  }

  lemma SameHeadwords(db: DB, fold: char -> char, after: DB)
    requires HeadwordsUnique(db, fold) && KeepsHeadwords(db, after)
    ensures HeadwordsUnique(after, fold)
  {
  }

  /** Writing word rows only, keeping headwords, keeps links right. */
  lemma WordRowsLinks(db: DB, after: DB)
    requires LinksOk(db) && after.rows == db.rows
    requires forall v | v in db.words :: v in after.words && after.words[v].headword == db.words[v].headword
    ensures LinksOk(after)
  {
    hide Root;
    forall k | k in after.rows && k.table.Rels? && after.rows[k].data.RelData?
      ensures LinkOk(after, after.rows[k].data.target)
    {
      assert LinkOk(db, db.rows[k].data.target);
    }
  }

  lemma SameRowSameTree(db: DB, after: DB, v: Id)
    requires RowsFit(db.rows) && after.rows == db.rows && v in db.words && v in after.words && after.words[v] == db.words[v]
    ensures TreeOf(after, v) == TreeOf(db, v)
  {
  }

  lemma OthersSame(db: DB, w: Id, row: WordRow)
    requires RowsFit(db.rows)
    ensures var after := Created(db, w, row);
      forall v | v in db.words && v != w :: v in after.words && TreeOf(after, v) == TreeOf(db, v)
  {
    hide RowsFit, TreeOf;
    var after := Created(db, w, row);
    forall v | v in db.words && v != w ensures v in after.words && TreeOf(after, v) == TreeOf(db, v) {
      SameRowSameTree(db, after, v);
    }
  }

  lemma EntryStays(db: DB, w: Id, row: WordRow, v: Id)
    requires WF(db) && v in db.words && v != w
    ensures var after := Created(db, w, row); RowsFit(after.rows) && v in after.words && Valid(Echo(TreeOf(after, v)))
  {
    assert v in Created(db, w, row).words;
    hide WF, RowsFit, TreeOf, Valid, Echo;
    EntryValid(db, v);
    SameRowSameTree(db, Created(db, w, row), v);
  }

  lemma StillRooted(db: DB, w: Id, row: WordRow)
    requires Rooted(db)
    ensures Rooted(Created(db, w, row))
  {
  }

  lemma EntriesAfter(db: DB, w: Id, row: WordRow)
    requires WF(db) && RowsFit(db.rows) && Valid(Echo(TreeOf(Created(db, w, row), w)))
    ensures EntriesValid(Created(db, w, row))
  {
    hide WF, RowsFit, TreeOf, Valid, Echo;
    var after := Created(db, w, row);
    forall v | v in after.words ensures Valid(Echo(TreeOf(after, v))) {
      if v != w {
        EntryStays(db, w, row, v);
      }
    }
  }

  /** Writes to one word row: the invariant holds again if that entry is valid. */
  lemma WordRowKeepsWF(db: DB, w: Id, row: WordRow)
    requires WF(db) && (w in db.words ==> row.headword == db.words[w].headword)
    requires RowsFit(db.rows) && Valid(Echo(TreeOf(Created(db, w, row), w)))
    ensures WF(Created(db, w, row))
  {
    hide Rooted, LinksOk, RefsInside, UniqueOk, AllListed, TreeOf, Valid, RowsFit, Echo, EntriesValid;
    WFParts(db);
    EntriesAfter(db, w, row);
    StillRooted(db, w, row);
    WordRowsLinks(db, Created(db, w, row));
  }

  lemma EmptyValid(w: Id, row: WordRow, t: Word)
    requires t == Word(w, row.kind, row.headword, "", Unified, [], row.status, row.createdBy, row.token, [], [])
    requires row.token != ZERO_TIME
    ensures Valid(Echo(t))
  {
    assert Doc(Echo(t)) == [];
  }

  lemma NoKidsOf(db: DB, t: Table, w: Id)
    requires Rooted(db) && Top(t) && w !in db.words
    ensures Kids(db.rows, t, w) == []
  {
    assert IsKids(db.rows, t, w, []);
    KidsAre(db.rows, t, w, []);
  }

  /** A new shell is an empty draft; every other entry stays as it was. */
  lemma CreateKeepsWF(db: DB, w: Id, kind: Kind, headword: string, author: Id, now: Token)
    requires WF(db) && w !in db.words && now != ZERO_TIME
    ensures var after := Created(db, w, Shell(kind, headword, author, now));
      && WF(after) && w in after.words
      && TreeOf(after, w) == Word(w, kind, headword, "", Unified, [], Draft, author, now, [], [])
      && forall v | v in db.words :: v in after.words && TreeOf(after, v) == TreeOf(db, v)
  {
    var row := Shell(kind, headword, author, now);
    assert w in Created(db, w, row).words;
    hide WF, Valid, TreeOf, RowsFit, Created;
    WFParts(db);
    ShellTree(db, w, row);
    EmptyValid(w, row, TreeOf(Created(db, w, row), w));
    WordRowKeepsWF(db, w, row);
    OthersSame(db, w, row);
  }

  lemma ShellTree(db: DB, w: Id, row: WordRow)
    requires WF(db) && w !in db.words && row.frequency == None && row.mode == Unified && row.dialects == []
    ensures var after := Created(db, w, row);
      && RowsFit(after.rows) && w in after.words
      && TreeOf(after, w) == Word(w, row.kind, row.headword, "", Unified, [], row.status, row.createdBy, row.token, [], [])
  {
    NoKidsOf(db, Groups, w);
    NoKidsOf(db, Pos, w);
    hide Rooted, RowsFit, AllListed, LinksOk, RefsInside, UniqueOk, EntriesValid;
    var after := Created(db, w, row);
    assert GroupsOf(after.rows, w) == [] && TabsOf(after.rows, w) == [];
  }

  // --- The status flip ---

  function StatusSet(db: DB, w: Id, s: Status, now: Token): DB
    requires w in db.words
  {
    Created(db, w, db.words[w].(status := s, token := now))
  }

  /** A flip changes the status and the token, and nothing else anywhere. */
  lemma StatusKeepsWF(db: DB, w: Id, s: Status, now: Token)
    requires WF(db) && w in db.words && now != ZERO_TIME
    ensures var after := StatusSet(db, w, s, now);
      && WF(after) && TreeOf(after, w) == TreeOf(db, w).(status := s, updatedAt := now)
      && forall v | v in db.words && v != w :: v in after.words && TreeOf(after, v) == TreeOf(db, v)
  {
    hide WF, Valid, TreeOf, RowsFit, Created, Echo;
    var row := db.words[w].(status := s, token := now);
    WFParts(db);
    FlippedTree(db, w, s, now);
    FlippedValid(db, w, s, now);
    WordRowKeepsWF(db, w, row);
    OthersSame(db, w, row);
  }

  lemma FlippedTree(db: DB, w: Id, s: Status, now: Token)
    requires RowsFit(db.rows) && w in db.words
    ensures TreeOf(StatusSet(db, w, s, now), w) == TreeOf(db, w).(status := s, updatedAt := now)
  {
    hide GroupsOf, TabsOf, RowsFit;
  }

  lemma FlippedValid(db: DB, w: Id, s: Status, now: Token)
    requires WF(db) && w in db.words && now != ZERO_TIME
    ensures Valid(Echo(TreeOf(db, w).(status := s, updatedAt := now)))
  {
    hide Rooted, RowsFit, AllListed, LinksOk, RefsInside, UniqueOk, TreeOf;
    var t := TreeOf(db, w);
    assert Valid(Echo(t));
    hide EntriesValid;
    RebasedValid(Echo(t), now);
  }

  lemma RebasedValid(b: SaveInput, now: Token)
    requires Valid(b) && now != ZERO_TIME
    ensures Valid(b.(base := now))
  {
    SameDoc(b, now);
    hide Doc, TabsOk, GroupsOk, IdsOk, FrequencyOk, ModeOk;
  }

  lemma SameDoc(b: SaveInput, now: Token)
    ensures Doc(b.(base := now)) == Doc(b)
  {
    hide Flat;
  }

  // --- Deleting entries ---

  function LostWith(db: DB, ws: set<Id>): Lost {
    Lost(WordStore.Under(db.rows, ws), ws)
  }

  /** A row goes when its entry goes; a row that stays keeps its place and its entry. */
  lemma Deleted(db: DB, ws: set<Id>, k: Key)
    requires WF(db)
    ensures var after := DeleteWords(db, ws);
      && (k in after.rows <==> k in db.rows && Root(db.rows, k).Some? && Root(db.rows, k).value !in ws)
      && (k in after.rows ==>
        after.rows[k] == db.rows[k].(data := Unlinked(db.rows[k].data, LostWith(db, ws).dead, ws)))
  {
    WFParts(db);
    hide WF, Root, Unlinked;
    if k in db.rows {
      RootExists(db, k);
    }
  }

  lemma {:induction false} DeletedRoot(db: DB, ws: set<Id>, k: Key)
    requires WF(db) && k in DeleteWords(db, ws).rows
    ensures k in db.rows && Root(DeleteWords(db, ws).rows, k) == Root(db.rows, k)
    decreases Depth(k.table)
  {
    hide WF, DeleteWords, Unlinked, LostWith;
    Deleted(db, ws, k);
    if Top(k.table) {
    } else {
      var p := ParentKey(k.table, db.rows[k].parent);
      WFParts(db);
      Deleted(db, ws, p);
      DeletedRoot(db, ws, p);
    }
  }

  lemma DeletedCarries(db: DB, ws: set<Id>, v: Id)
    requires WF(db) && v in db.words && v !in ws
    ensures Carries(db, LostWith(db, ws), v, DeleteWords(db, ws))
  {
    var after := DeleteWords(db, ws);
    hide WF, Unlinked, Root, SameKids;
    forall k | k in db.rows && Root(db.rows, k) == Some(v)
      ensures k !in LostWith(db, ws).dead && k in after.rows
      ensures after.rows[k] == db.rows[k].(data := Unlinked(db.rows[k].data, LostWith(db, ws).dead, ws))
    {
      Deleted(db, ws, k);
    }
    hide DeleteWords;
    forall t, p | Mine(db.rows, v, t, p) ensures SameKids(db.rows, after.rows, t, p) {
      DeletedKids(db, ws, v, t, p);
    }
  }

  lemma DeletedKids(db: DB, ws: set<Id>, v: Id, t: Table, p: Id)
    requires WF(db) && v !in ws && Mine(db.rows, v, t, p)
    ensures SameKids(db.rows, DeleteWords(db, ws).rows, t, p)
  {
    hide WF, DeleteWords, Unlinked, Root;
    var after := DeleteWords(db, ws);
    forall id ensures var k := Key(t, id);
      && ((k in db.rows && db.rows[k].parent == p) <==> (k in after.rows && after.rows[k].parent == p))
      && (k in db.rows && db.rows[k].parent == p ==> db.rows[k].ord == after.rows[k].ord)
    {
      var k := Key(t, id);
      Deleted(db, ws, k);
      if k in db.rows && db.rows[k].parent == p {
        if Top(t) {
          RootOfTop(db.rows, k);
        } else {
          RootOfChild(db.rows, k);
        }
      }
    }
  }

  lemma DeletedFits(db: DB, ws: set<Id>)
    requires WF(db)
    ensures RowsFit(DeleteWords(db, ws).rows)
  {
    WFParts(db);
    hide WF, DeleteWords, Unlinked, Root, Fits;
    forall k | k in DeleteWords(db, ws).rows ensures Fits(k.table, DeleteWords(db, ws).rows[k].data) {
      Deleted(db, ws, k);
      UnlinkedFits(k.table, db.rows[k].data, LostWith(db, ws).dead, ws);
    }
  }

  lemma DeletedFrame(db: DB, ws: set<Id>, v: Id)
    requires WF(db) && v in db.words && v !in ws
    ensures Frame(db, LostWith(db, ws), v, DeleteWords(db, ws))
  {
    hide WF, DeleteWords, Carries, RowsFit, RefsInside, AllListed, LostWith;
    WFParts(db);
    DeletedFits(db, ws);
    DeletedCarries(db, ws, v);
  }

  /** Deleting entries: every other tree is the same, but for links to what is gone. */
  lemma DeleteLeavesOthers(db: DB, ws: set<Id>, v: Id)
    requires WF(db) && v in db.words && v !in ws
    ensures var after := DeleteWords(db, ws);
      && RowsFit(db.rows) && RowsFit(after.rows) && v in after.words
      && TreeOf(after, v) == UnlinkedTree(LostWith(db, ws), TreeOf(db, v))
  {
    hide WF, DeleteWords, RowsFit, LostWith, TreeOf, UnlinkedTree, Carries, RefsInside, AllListed;
    WFParts(db);
    DeletedFits(db, ws);
    DeletedFrame(db, ws, v);
    TreeFramed(db, LostWith(db, ws), v, DeleteWords(db, ws));
  }

  /** A link whose word goes loses its sense too: the sense was that word's. */
  lemma DeletedLink(db: DB, ws: set<Id>, link: Link)
    requires WF(db) && LinkOk(db, link)
    ensures LinkOk(DeleteWords(db, ws), UnlinkedTarget(link, LostWith(db, ws).dead, ws))
  {
    hide WF, DeleteWords, Root, LostWith;
    DeletedWords(db, ws);
    if link.sense.Some? {
      DeletedSense(db, ws, link.sense.value);
    }
  }

  lemma DeletedWords(db: DB, ws: set<Id>)
    ensures DeleteWords(db, ws).words == db.words - ws
  {
  }

  lemma DeletedSense(db: DB, ws: set<Id>, s: Id)
    requires WF(db)
    ensures var k := Key(Senses, s);
      && (Root(db.rows, k).Some? && Root(db.rows, k).value in ws ==> k in LostWith(db, ws).dead)
      && (Root(db.rows, k).Some? && Root(db.rows, k).value !in ws ==>
        Root(DeleteWords(db, ws).rows, k) == Root(db.rows, k))
  {
    var k := Key(Senses, s);
    if Root(db.rows, k).Some? {
      RootInRows(db.rows, k);
      Deleted(db, ws, k);
      hide WF, DeleteWords, Root;
      if k in DeleteWords(db, ws).rows {
        DeletedRoot(db, ws, k);
      }
    }
  }

  lemma DeletedLinks(db: DB, ws: set<Id>)
    requires WF(db)
    ensures LinksOk(DeleteWords(db, ws))
  {
    var after := DeleteWords(db, ws);
    forall k | k in after.rows && k.table.Rels? && after.rows[k].data.RelData?
      ensures LinkOk(after, after.rows[k].data.target)
    {
      hide *;
      DeletedRelation(db, ws, k);
    }
  }

  lemma DeletedRelation(db: DB, ws: set<Id>, k: Key)
    requires WF(db) && k in DeleteWords(db, ws).rows && k.table.Rels?
    requires DeleteWords(db, ws).rows[k].data.RelData?
    ensures LinkOk(DeleteWords(db, ws), DeleteWords(db, ws).rows[k].data.target)
  {
    hide *;
    WFParts(db);
    Deleted(db, ws, k);
    RelationLinkOk(db, k);
    DeletedLink(db, ws, db.rows[k].data.target);
    UnlinkedRelation(db.rows[k].data, LostWith(db, ws).dead, ws);
  }

  lemma UnlinkedRelation(d: Data, dead: set<Key>, ws: set<Id>)
    requires d.RelData?
    ensures Unlinked(d, dead, ws) == d.(target := UnlinkedTarget(d.target, dead, ws))
  {
  }

  lemma RelationLinkOk(db: DB, k: Key)
    requires RowsFit(db.rows) && LinksOk(db) && k in db.rows && k.table.Rels?
    ensures db.rows[k].data.RelData? && LinkOk(db, db.rows[k].data.target)
  {
    assert Fits(k.table, db.rows[k].data);
    hide LinkOk;
  }

  lemma DeletedRooted(db: DB, ws: set<Id>)
    requires WF(db)
    ensures Rooted(DeleteWords(db, ws))
  {
    hide *;
    WFParts(db);
    var after := DeleteWords(db, ws);
    DeletedWords(db, ws);
    forall k | k in after.rows ensures RootedAt(after, k) {
      DeletedRootedAt(db, ws, k);
    }
    AllRooted(after);
  }

  ghost predicate RootedAt(db: DB, k: Key)
    requires k in db.rows
  {
    if Top(k.table) then db.rows[k].parent in db.words else ParentKey(k.table, db.rows[k].parent) in db.rows
  }

  lemma AllRooted(db: DB)
    ensures Rooted(db) <==> forall k | k in db.rows :: RootedAt(db, k)
  {
  }

  lemma DeletedRootedAt(db: DB, ws: set<Id>, k: Key)
    requires WF(db) && k in DeleteWords(db, ws).rows
    ensures RootedAt(DeleteWords(db, ws), k)
  {
    hide WF, DeleteWords, LostWith, Unlinked, Root;
    WFParts(db);
    DeletedWords(db, ws);
    Deleted(db, ws, k);
    if Top(k.table) {
      RootOfTop(db.rows, k);
    } else {
      RootOfChild(db.rows, k);
      Deleted(db, ws, ParentKey(k.table, db.rows[k].parent));
    }
  }

  lemma DeletedListed(db: DB, ws: set<Id>)
    requires WF(db)
    ensures AllListed(DeleteWords(db, ws).rows)
  {
    forall t, p ensures Listed(DeleteWords(db, ws).rows, t, p) {
      hide *;
      DeletedList(db, ws, t, p);
    }
  }

  lemma ChildOfOwner(rows: Rows, k: Key)
    requires k in rows && Root(rows, k).Some?
    ensures Mine(rows, Root(rows, k).value, k.table, rows[k].parent)
  {
  }

  lemma DeletedList(db: DB, ws: set<Id>, t: Table, p: Id)
    requires WF(db)
    ensures Listed(DeleteWords(db, ws).rows, t, p)
  {
    hide WF, DeleteWords, LostWith, Unlinked, Root, IsKids, SameKids;
    WFParts(db);
    if v :| v !in ws && Mine(db.rows, v, t, p) {
      DeletedKids(db, ws, v, t, p);
      assert Listed(db.rows, t, p);
      var ids :| IsKids(db.rows, t, p, ids);
      IsKidsSame(db.rows, DeleteWords(db, ws).rows, t, p, ids);
    } else {
      forall k | k in DeleteWords(db, ws).rows && k.table == t
        ensures DeleteWords(db, ws).rows[k].parent != p
      {
        Deleted(db, ws, k);
        ChildOfOwner(db.rows, k);
      }
      NoParentListed(DeleteWords(db, ws).rows, t, p);
    }
  }

  /** Rows outside relations stay as they are. */
  lemma DeletedStatic(db: DB, ws: set<Id>, k: Key)
    requires WF(db) && k in DeleteWords(db, ws).rows && !k.table.Rels?
    ensures k in db.rows && DeleteWords(db, ws).rows[k] == db.rows[k]
  {
    hide *;
    WFParts(db);
    Deleted(db, ws, k);
    RootExists(db, k);
    DeletedCarries(db, ws, Root(db.rows, k).value);
    CarriedRow(db, LostWith(db, ws), Root(db.rows, k).value, DeleteWords(db, ws), k);
  }

  lemma DeletedGroupRef(db: DB, ws: set<Id>, k: Key)
    requires WF(db) && k in DeleteWords(db, ws).rows && k.table.Senses?
    ensures GroupRefOk(DeleteWords(db, ws).rows, k)
  {
    hide *;
    WFParts(db);
    var rows := DeleteWords(db, ws).rows;
    Deleted(db, ws, k);
    DeletedStatic(db, ws, k);
    GroupsInside(db.rows, k);
    NoRef(rows, k);
    SenseFits(db.rows, k);
    if db.rows[k].data.group.Some? {
      var g, p := db.rows[k].data.group.value, db.rows[k].parent;
      GroupRefIs(db.rows, k, g, p);
      SenseGroupSameEntry(db.rows, k);
      RootAbove(db.rows, k);
      Deleted(db, ws, Key(Groups, g));
      Deleted(db, ws, Key(Pos, p));
      DeletedStatic(db, ws, Key(Groups, g));
      DeletedStatic(db, ws, Key(Pos, p));
      GroupRefIs(rows, k, g, p);
    }
  }

  lemma DeletedStructRef(db: DB, ws: set<Id>, k: Key)
    requires WF(db) && k in DeleteWords(db, ws).rows && k.table.Defs?
    ensures StructRefOk(DeleteWords(db, ws).rows, k)
  {
    hide *;
    WFParts(db);
    var rows := DeleteWords(db, ws).rows;
    Deleted(db, ws, k);
    DeletedStatic(db, ws, k);
    StructsInside(db.rows, k);
    NoRef(rows, k);
    SenseFits(db.rows, k);
    if db.rows[k].data.structure.Some? {
      var g, s := db.rows[k].data.structure.value, db.rows[k].parent;
      StructRefIs(db.rows, k, g, s);
      DefinitionStructSameEntry(db.rows, k);
      RootAbove(db.rows, k);
      Deleted(db, ws, Key(Structs, g));
      Deleted(db, ws, Key(Senses, s));
      DeletedStatic(db, ws, Key(Structs, g));
      DeletedStatic(db, ws, Key(Senses, s));
      StructRefIs(rows, k, g, s);
    }
  }

  lemma SenseFits(rows: Rows, k: Key)
    requires RowsFit(rows) && k in rows
    ensures k.table.Senses? ==> rows[k].data.SenseData?
    ensures k.table.Defs? ==> rows[k].data.DefData?
  {
    assert Fits(k.table, rows[k].data);
  }

  lemma DeletedRefs(db: DB, ws: set<Id>)
    requires WF(db)
    ensures RefsInside(DeleteWords(db, ws).rows)
  {
    var rows := DeleteWords(db, ws).rows;
    forall k | k in rows && k.table.Senses? ensures GroupRefOk(rows, k) {
      hide *;
      DeletedGroupRef(db, ws, k);
    }
    forall k | k in rows && k.table.Defs? ensures StructRefOk(rows, k) {
      hide *;
      DeletedStructRef(db, ws, k);
    }
  }

  lemma DeletedUnique(db: DB, ws: set<Id>)
    requires WF(db)
    ensures UniqueOk(DeleteWords(db, ws).rows)
  {
    var rows := DeleteWords(db, ws).rows;
    hide DeleteWords, WF;
    WFParts(db);
    forall k, l | k in rows && l in rows && SameTab(rows, k, l) ensures k == l {
      DeletedStatic(db, ws, k);
      DeletedStatic(db, ws, l);
    }
    forall k, l | k in rows && l in rows && SameVariant(rows, k, l) ensures k == l {
      DeletedStatic(db, ws, k);
      DeletedStatic(db, ws, l);
    }
  }

  lemma DeletedProper(db: DB, ws: set<Id>, v: Id)
    requires WF(db) && RowsFit(db.rows) && v in db.words && v !in ws
    ensures Proper(LostWith(db, ws), TreeOf(db, v))
  {
    WFParts(db);
    var t := TreeOf(db, v);
    hide WF, TreeOf, LinksOk, RowsFit, Rooted, AllListed, RefsInside, UniqueOk;
    forall p: nat, i: nat, k: nat |
      p < |t.pos| && i < |t.pos[p].senses| && k < |t.pos[p].senses[i].relations|
      ensures var link := UnlinkedTarget(t.pos[p].senses[i].relations[k].target, LostWith(db, ws).dead, ws);
        link.sense.Some? ==> link.word.Some?
    {
      TreeLinkOk(db, v, p, i, k);
      var link := t.pos[p].senses[i].relations[k].target;
      DeletedLink(db, ws, link);
    }
  }

  lemma DeletedEntry(db: DB, ws: set<Id>, v: Id)
    requires WF(db) && v in db.words && v !in ws
    ensures RowsFit(DeleteWords(db, ws).rows) && v in DeleteWords(db, ws).words
    ensures Valid(Echo(TreeOf(DeleteWords(db, ws), v)))
  {
    hide *;
    WFParts(db);
    DeletedFits(db, ws);
    EntryValid(db, v);
    DeleteLeavesOthers(db, ws, v);
    DeletedProper(db, ws, v);
    UnlinkedValid(LostWith(db, ws), TreeOf(db, v));
  }

  lemma UnlinkedValid(x: Lost, t: Word)
    requires Valid(Echo(t)) && Proper(x, t)
    ensures Valid(Echo(UnlinkedTree(x, t)))
  {
    hide NodesOk, FrequencyOk, ModeOk, UnlinkedTabs, Alike, Proper;
    UnlinkedAlike(x, t);
    AlikeOk(Echo(t), Echo(UnlinkedTree(x, t)));
  }

  lemma DeletedEntries(db: DB, ws: set<Id>)
    requires WF(db) && RowsFit(DeleteWords(db, ws).rows)
    ensures EntriesValid(DeleteWords(db, ws))
  {
    hide WF, DeleteWords, RowsFit, TreeOf, Valid, Echo;
    DeletedWords(db, ws);
    forall v | v in DeleteWords(db, ws).words ensures Valid(Echo(TreeOf(DeleteWords(db, ws), v))) {
      DeletedEntry(db, ws, v);
    }
  }

  /** The invariant survives every delete. */
  lemma DeleteKeepsWF(db: DB, ws: set<Id>)
    requires WF(db)
    ensures WF(DeleteWords(db, ws))
  {
    hide DeleteWords, Rooted, RowsFit, AllListed, LinksOk, RefsInside, UniqueOk, EntriesValid;
    DeletedRooted(db, ws);
    DeletedFits(db, ws);
    DeletedListed(db, ws);
    DeletedLinks(db, ws);
    DeletedRefs(db, ws);
    DeletedUnique(db, ws);
    DeletedEntries(db, ws);
  }
}
