/** What other entries see of a write: their trees stay, apart from links to what vanished. */
module WordFrame {
  import opened Basics
  import opened WordModel
  import opened WordTables
  import opened WordValidation
  import opened WordStore
  import opened WordRead
  import opened WordAlike
  import opened WordBody
  import opened WordReplace
  import opened WordInvariant

  // --- A tree without its links to vanished senses and words ---

  datatype Lost = Lost(dead: set<Key>, words: set<Id>)

  ghost function UnlinkedRels(x: Lost, rs: seq<Relation>): (r: seq<Relation>)
    ensures |r| == |rs| && forall i | 0 <= i < |rs| ::
      r[i] == rs[i].(target := UnlinkedTarget(rs[i].target, x.dead, x.words))
  {
    seq(|rs|, i requires 0 <= i < |rs| => rs[i].(target := UnlinkedTarget(rs[i].target, x.dead, x.words)))
  }

  ghost function UnlinkedSense(x: Lost, s: Sense): Sense {
    s.(relations := UnlinkedRels(x, s.relations))
  }

  ghost function UnlinkedSenses(x: Lost, ss: seq<Sense>): (r: seq<Sense>)
    ensures |r| == |ss| && forall i | 0 <= i < |ss| :: r[i] == UnlinkedSense(x, ss[i])
  {
    seq(|ss|, i requires 0 <= i < |ss| => UnlinkedSense(x, ss[i]))
  }

  ghost function UnlinkedTab(x: Lost, p: POS): POS {
    p.(senses := UnlinkedSenses(x, p.senses))
  }

  ghost function UnlinkedTabs(x: Lost, ps: seq<POS>): (r: seq<POS>)
    ensures |r| == |ps| && forall i | 0 <= i < |ps| :: r[i] == UnlinkedTab(x, ps[i])
  {
    seq(|ps|, i requires 0 <= i < |ps| => UnlinkedTab(x, ps[i]))
  }

  ghost function UnlinkedTree(x: Lost, w: Word): Word {
    w.(pos := UnlinkedTabs(x, w.pos))
  }

  // --- A write that leaves word v alone ---

  ghost predicate Mine(rows: Rows, v: Id, t: Table, p: Id) {
    if Top(t) then p == v else Root(rows, ParentKey(t, p)) == Some(v)
  }

  /** v's row stays, v's rows stay with their links to lost rows nulled, and so do its lists. */
  ghost predicate Carries(db: DB, x: Lost, v: Id, after: DB) {
    && v in db.words && v in after.words && after.words[v] == db.words[v]
    && (forall k | k in db.rows && Root(db.rows, k) == Some(v) ::
      && k !in x.dead && k in after.rows
      && after.rows[k] == db.rows[k].(data := Unlinked(db.rows[k].data, x.dead, x.words)))
    && (forall t, p | Mine(db.rows, v, t, p) :: SameKids(db.rows, after.rows, t, p))
  }

  /** A row of v keeps everything but, in relations, links to what is lost. */
  lemma CarriedRow(db: DB, x: Lost, v: Id, after: DB, k: Key)
    requires Carries(db, x, v, after) && RefsInside(db.rows) && RowsFit(db.rows)
    requires k in db.rows && Root(db.rows, k) == Some(v)
    ensures k in after.rows
    ensures !k.table.Rels? ==> after.rows[k] == db.rows[k]
    ensures k.table.Rels? ==> after.rows[k].parent == db.rows[k].parent && after.rows[k].ord == db.rows[k].ord
    ensures k.table.Rels? ==> db.rows[k].data.RelData?
    ensures k.table.Rels? ==>
      after.rows[k].data == db.rows[k].data.(target := UnlinkedTarget(db.rows[k].data.target, x.dead, x.words))
  {
    hide UnlinkedTarget, SameKids, RefsInside, Root;
    assert Fits(k.table, db.rows[k].data);
    if k.table.Senses? && db.rows[k].data.group.Some? {
      SenseGroupSameEntry(db.rows, k);
      RootInRows(db.rows, Key(Groups, db.rows[k].data.group.value));
    }
    if k.table.Defs? && db.rows[k].data.structure.Some? {
      DefinitionStructSameEntry(db.rows, k);
      RootInRows(db.rows, Key(Structs, db.rows[k].data.structure.value));
    }
  }

  lemma RootInRows(rows: Rows, k: Key)
    requires Root(rows, k).Some?
    ensures k in rows
  {
  }

  // --- Level by level ---

  ghost predicate Frame(db: DB, x: Lost, v: Id, after: DB) {
    && Carries(db, x, v, after) && RefsInside(db.rows) && AllListed(db.rows)
    && RowsFit(db.rows) && RowsFit(after.rows)
  }

  lemma FrameKids(db: DB, x: Lost, v: Id, after: DB, t: Table, p: Id)
    requires Frame(db, x, v, after) && Mine(db.rows, v, t, p)
    ensures Kids(after.rows, t, p) == Kids(db.rows, t, p)
  {
    hide SameKids, RowsFit, RefsInside, Kids;
    KidsSame(db.rows, after.rows, t, p);
  }

  lemma FrameKid(db: DB, x: Lost, v: Id, after: DB, t: Table, p: Id, i: nat)
    requires Frame(db, x, v, after) && Mine(db.rows, v, t, p) && i < |Kids(db.rows, t, p)|
    ensures var k := Key(t, Kids(db.rows, t, p)[i]);
      && k in db.rows && db.rows[k].parent == p && Root(db.rows, k) == Some(v)
      && k in after.rows && (!t.Rels? ==> after.rows[k] == db.rows[k])
  {
    hide Carries, RowsFit, RefsInside;
    assert Listed(db.rows, t, p);
    var k := Key(t, Kids(db.rows, t, p)[i]);
    KidOf(db.rows, t, p, i);
    if Top(t) {
      RootOfTop(db.rows, k);
    } else {
      RootOfChild(db.rows, k);
    }
    CarriedRow(db, x, v, after, k);
  }

  lemma KidOf(rows: Rows, t: Table, p: Id, i: nat)
    requires Listed(rows, t, p) && i < |Kids(rows, t, p)|
    ensures var k := Key(t, Kids(rows, t, p)[i]); k in rows && rows[k].parent == p && rows[k].ord == i
  {
    var ids :| IsKids(rows, t, p, ids);
    KidsAre(rows, t, p, ids);
  }

  lemma PronsFramed(db: DB, x: Lost, v: Id, after: DB, p: Id)
    requires Frame(db, x, v, after) && Mine(db.rows, v, Prons, p)
    ensures PronsOf(after.rows, p) == PronsOf(db.rows, p)
  {
    FrameKids(db, x, v, after, Prons, p);
    assert RowsFit(db.rows) && RowsFit(after.rows);
    hide Frame, Mine, Kids, RowsFit;
    forall i: nat | i < |Kids(db.rows, Prons, p)| ensures PronsOf(after.rows, p)[i] == PronsOf(db.rows, p)[i] {
      FrameKid(db, x, v, after, Prons, p, i);
    }
  }

  lemma VariantsFramed(db: DB, x: Lost, v: Id, after: DB, p: Id)
    requires Frame(db, x, v, after) && Mine(db.rows, v, Variants, p)
    ensures VariantsOf(after.rows, p) == VariantsOf(db.rows, p)
  {
    FrameKids(db, x, v, after, Variants, p);
    assert RowsFit(db.rows) && RowsFit(after.rows);
    hide Frame, Mine, Kids, RowsFit;
    forall i: nat | i < |Kids(db.rows, Variants, p)| ensures VariantsOf(after.rows, p)[i] == VariantsOf(db.rows, p)[i] {
      FrameKid(db, x, v, after, Variants, p, i);
    }
  }

  lemma DefsFramed(db: DB, x: Lost, v: Id, after: DB, p: Id)
    requires Frame(db, x, v, after) && Mine(db.rows, v, Defs, p)
    ensures DefsOf(after.rows, p) == DefsOf(db.rows, p)
  {
    FrameKids(db, x, v, after, Defs, p);
    assert RowsFit(db.rows) && RowsFit(after.rows);
    hide Frame, Mine, Kids, RowsFit;
    forall i: nat | i < |Kids(db.rows, Defs, p)| ensures DefsOf(after.rows, p)[i] == DefsOf(db.rows, p)[i] {
      FrameKid(db, x, v, after, Defs, p, i);
    }
  }

  lemma SentsFramed(db: DB, x: Lost, v: Id, after: DB, p: Id)
    requires Frame(db, x, v, after) && Mine(db.rows, v, Sents, p)
    ensures SentsOf(after.rows, p) == SentsOf(db.rows, p)
  {
    FrameKids(db, x, v, after, Sents, p);
    assert RowsFit(db.rows) && RowsFit(after.rows);
    hide Frame, Mine, Kids, RowsFit;
    forall i: nat | i < |Kids(db.rows, Sents, p)| ensures SentsOf(after.rows, p)[i] == SentsOf(db.rows, p)[i] {
      FrameKid(db, x, v, after, Sents, p, i);
    }
  }

  lemma GroupsFramed(db: DB, x: Lost, v: Id, after: DB, p: Id)
    requires Frame(db, x, v, after) && Mine(db.rows, v, Groups, p)
    ensures GroupsOf(after.rows, p) == GroupsOf(db.rows, p)
  {
    FrameKids(db, x, v, after, Groups, p);
    assert RowsFit(db.rows) && RowsFit(after.rows);
    hide Frame, Mine, Kids, RowsFit;
    forall i: nat | i < |Kids(db.rows, Groups, p)| ensures GroupsOf(after.rows, p)[i] == GroupsOf(db.rows, p)[i] {
      FrameKid(db, x, v, after, Groups, p, i);
    }
  }

  lemma RelsFramed(db: DB, x: Lost, v: Id, after: DB, p: Id)
    requires Frame(db, x, v, after) && Mine(db.rows, v, Rels, p)
    ensures RelsOf(after.rows, p) == UnlinkedRels(x, RelsOf(db.rows, p))
  {
    FrameKids(db, x, v, after, Rels, p);
    assert RowsFit(db.rows) && RowsFit(after.rows);
    hide Mine, Kids, RowsFit, Carries, UnlinkedTarget, AllListed, RefsInside;
    forall i: nat | i < |Kids(db.rows, Rels, p)|
      ensures RelsOf(after.rows, p)[i] == UnlinkedRels(x, RelsOf(db.rows, p))[i]
    {
      FrameKid(db, x, v, after, Rels, p, i);
      CarriedRow(db, x, v, after, Key(Rels, Kids(db.rows, Rels, p)[i]));
    }
  }

  lemma FormsFramed(db: DB, x: Lost, v: Id, after: DB, p: Id)
    requires Frame(db, x, v, after) && Mine(db.rows, v, Forms, p)
    ensures FormsOf(after.rows, p) == FormsOf(db.rows, p)
  {
    FrameKids(db, x, v, after, Forms, p);
    assert RowsFit(db.rows) && RowsFit(after.rows);
    hide Frame, Kids, RowsFit, PronsOf;
    forall i: nat | i < |Kids(db.rows, Forms, p)| ensures FormsOf(after.rows, p)[i] == FormsOf(db.rows, p)[i] {
      FrameKid(db, x, v, after, Forms, p, i);
      PronsFramed(db, x, v, after, Kids(db.rows, Forms, p)[i]);
    }
  }

  lemma StructsFramed(db: DB, x: Lost, v: Id, after: DB, p: Id)
    requires Frame(db, x, v, after) && Mine(db.rows, v, Structs, p)
    ensures StructsOf(after.rows, p) == StructsOf(db.rows, p)
  {
    FrameKids(db, x, v, after, Structs, p);
    assert RowsFit(db.rows) && RowsFit(after.rows);
    hide Frame, Kids, RowsFit, VariantsOf;
    forall i: nat | i < |Kids(db.rows, Structs, p)| ensures StructsOf(after.rows, p)[i] == StructsOf(db.rows, p)[i] {
      FrameKid(db, x, v, after, Structs, p, i);
      VariantsFramed(db, x, v, after, Kids(db.rows, Structs, p)[i]);
    }
  }

  lemma SenseFramed(db: DB, x: Lost, v: Id, after: DB, id: Id)
    requires Frame(db, x, v, after) && Key(Senses, id) in db.rows && Key(Senses, id) in after.rows
    requires Root(db.rows, Key(Senses, id)) == Some(v) && after.rows[Key(Senses, id)] == db.rows[Key(Senses, id)]
    ensures SenseOf(after.rows, id) == UnlinkedSense(x, SenseOf(db.rows, id))
  {
    assert RowsFit(db.rows) && RowsFit(after.rows);
    assert Mine(db.rows, v, Defs, id) && Mine(db.rows, v, Sents, id) && Mine(db.rows, v, Rels, id);
    hide Frame, Mine, Root, RowsFit, DefsOf, SentsOf, RelsOf, UnlinkedRels;
    DefsFramed(db, x, v, after, id);
    SentsFramed(db, x, v, after, id);
    RelsFramed(db, x, v, after, id);
  }

  lemma SensesFramed(db: DB, x: Lost, v: Id, after: DB, p: Id)
    requires Frame(db, x, v, after) && Mine(db.rows, v, Senses, p)
    ensures SensesOf(after.rows, p) == UnlinkedSenses(x, SensesOf(db.rows, p))
  {
    FrameKids(db, x, v, after, Senses, p);
    assert RowsFit(db.rows) && RowsFit(after.rows);
    hide Frame, Kids, RowsFit, SenseOf, UnlinkedSense;
    forall i: nat | i < |Kids(db.rows, Senses, p)|
      ensures SensesOf(after.rows, p)[i] == UnlinkedSenses(x, SensesOf(db.rows, p))[i]
    {
      FrameKid(db, x, v, after, Senses, p, i);
      SenseFramed(db, x, v, after, Kids(db.rows, Senses, p)[i]);
    }
  }

  lemma TabFramed(db: DB, x: Lost, v: Id, after: DB, id: Id)
    requires Frame(db, x, v, after) && Key(Pos, id) in db.rows && Key(Pos, id) in after.rows
    requires Root(db.rows, Key(Pos, id)) == Some(v) && after.rows[Key(Pos, id)] == db.rows[Key(Pos, id)]
    ensures PosOf(after.rows, id) == UnlinkedTab(x, PosOf(db.rows, id))
  {
    assert RowsFit(db.rows) && RowsFit(after.rows);
    assert Mine(db.rows, v, Forms, id) && Mine(db.rows, v, Structs, id) && Mine(db.rows, v, Senses, id);
    hide Frame, Mine, Root, RowsFit, FormsOf, StructsOf, SensesOf, UnlinkedSenses;
    FormsFramed(db, x, v, after, id);
    StructsFramed(db, x, v, after, id);
    SensesFramed(db, x, v, after, id);
  }

  lemma TabsFramed(db: DB, x: Lost, v: Id, after: DB)
    requires Frame(db, x, v, after)
    ensures TabsOf(after.rows, v) == UnlinkedTabs(x, TabsOf(db.rows, v))
  {
    FrameKids(db, x, v, after, Pos, v);
    assert RowsFit(db.rows) && RowsFit(after.rows);
    hide Frame, Kids, RowsFit, PosOf, UnlinkedTab;
    forall i: nat | i < |Kids(db.rows, Pos, v)|
      ensures TabsOf(after.rows, v)[i] == UnlinkedTabs(x, TabsOf(db.rows, v))[i]
    {
      FrameKid(db, x, v, after, Pos, v, i);
      TabFramed(db, x, v, after, Kids(db.rows, Pos, v)[i]);
    }
  }

  /** An entry that a write leaves alone reads the same, with its links to what vanished nulled. */
  lemma TreeFramed(db: DB, x: Lost, v: Id, after: DB)
    requires Frame(db, x, v, after)
    ensures v in db.words && v in after.words && TreeOf(after, v) == UnlinkedTree(x, TreeOf(db, v))
  {
    GroupsFramed(db, x, v, after, v);
    TabsFramed(db, x, v, after);
    hide GroupsOf, TabsOf, UnlinkedTabs, RefsInside, AllListed, RowsFit;
  }

  // --- It stays as valid as it was ---

  /** No relation of the tree keeps a sense link when it loses its word link. */
  ghost predicate Proper(x: Lost, t: Word) {
    forall p: nat, i: nat, k: nat |
      p < |t.pos| && i < |t.pos[p].senses| && k < |t.pos[p].senses[i].relations| ::
      var link := UnlinkedTarget(t.pos[p].senses[i].relations[k].target, x.dead, x.words);
      link.sense.Some? ==> link.word.Some?
  }

  lemma UnlinkedAlike(x: Lost, t: Word)
    requires Proper(x, t)
    ensures Alike(Echo(t), Echo(UnlinkedTree(x, t)))
  {
    var ps, qs := t.pos, UnlinkedTabs(x, t.pos);
    forall p: nat | p < |ps| ensures AlikeTab(ps[p], qs[p]) {
      var ss, us := ps[p].senses, UnlinkedSenses(x, ps[p].senses);
      forall i: nat | i < |ss| ensures AlikeSense(ss[i], us[i]) {
        assert forall k: nat | k < |ss[i].relations| ::
          var link := UnlinkedTarget(t.pos[p].senses[i].relations[k].target, x.dead, x.words);
          link.sense.Some? ==> link.word.Some?;
        hide Proper, UnlinkedTarget;
      }
      hide Proper, AlikeSense, UnlinkedSense;
    }
    hide Proper, AlikeTab, UnlinkedTab;
  }

  lemma ProperWithoutWords(x: Lost, t: Word)
    requires NodesOk(Echo(t)) && x.words == {}
    ensures Proper(x, t)
  {
    forall p: nat, i: nat, k: nat |
      p < |t.pos| && i < |t.pos[p].senses| && k < |t.pos[p].senses[i].relations|
      ensures var link := UnlinkedTarget(t.pos[p].senses[i].relations[k].target, x.dead, x.words);
        link.sense.Some? ==> link.word.Some?
    {
      RelationsOk(Echo(t), p, i, k);
      hide NodesOk;
    }
  }

  /** The relations of a loaded tree are rows, and rows satisfy the invariant on links. */
  lemma TreeLinkOk(db: DB, v: Id, p: nat, i: nat, k: nat)
    requires RowsFit(db.rows) && LinksOk(db) && v in db.words
    requires var t := TreeOf(db, v);
      p < |t.pos| && i < |t.pos[p].senses| && k < |t.pos[p].senses[i].relations|
    ensures LinkOk(db, TreeOf(db, v).pos[p].senses[i].relations[k].target)
  {
    hide LinkOk, Kids, GroupsOf, FormsOf, StructsOf, DefsOf, SentsOf;
    var pos := Kids(db.rows, Pos, v)[p];
    var sense := Kids(db.rows, Senses, pos)[i];
    var rel := Key(Rels, Kids(db.rows, Rels, sense)[k]);
    assert Fits(Rels, db.rows[rel].data);
    assert TreeOf(db, v).pos[p].senses[i].relations[k] == RelOf(db.rows, rel.id);
  }
}
