/**
 From rows back to trees: the tree a store holds for a word (internal/word/repository.go,
 GetTree). Siblings carry the sort orders 0, 1, 2, ..., so each list of children is
 determined by the rows.
 */
module WordRead {
  import opened Basics
  import opened WordModel
  import opened WordTables
  import opened WordValidation
  import opened WordStore

  /** Child i of parent p in table t is ids[i], and there are no others. */
  ghost predicate IsKids(rows: Rows, t: Table, p: Id, ids: seq<Id>) {
    && (forall i | 0 <= i < |ids| ::
      Key(t, ids[i]) in rows && rows[Key(t, ids[i])].parent == p && rows[Key(t, ids[i])].ord == i)
    && (forall id | Key(t, id) in rows && rows[Key(t, id)].parent == p :: id in ids)
  }

  ghost predicate Listed(rows: Rows, t: Table, p: Id) {
    exists ids :: IsKids(rows, t, p, ids)
  }

  lemma KidsNoLonger(rows: Rows, t: Table, p: Id, a: seq<Id>, b: seq<Id>)
    requires IsKids(rows, t, p, a) && IsKids(rows, t, p, b)
    ensures |b| <= |a|
  {
    if b != [] {
      assert b[|b| - 1] in a;
    }
  }

  lemma KidsUnique(rows: Rows, t: Table, p: Id, a: seq<Id>, b: seq<Id>)
    requires IsKids(rows, t, p, a) && IsKids(rows, t, p, b)
    ensures a == b
  {
    KidsNoLonger(rows, t, p, a, b);
    KidsNoLonger(rows, t, p, b, a);
    forall i | 0 <= i < |a| ensures a[i] == b[i] {
      assert a[i] in b;
    }
  }

  ghost function Kids(rows: Rows, t: Table, p: Id): (ids: seq<Id>)
    ensures forall i | 0 <= i < |ids| :: Key(t, ids[i]) in rows
  {
    if Listed(rows, t, p) then
      var ids :| IsKids(rows, t, p, ids);
      ids
    else []
  }

  lemma KidsAre(rows: Rows, t: Table, p: Id, ids: seq<Id>)
    requires IsKids(rows, t, p, ids)
    ensures Kids(rows, t, p) == ids
  {
    var ks :| IsKids(rows, t, p, ks) && Kids(rows, t, p) == ks;
    KidsUnique(rows, t, p, ks, ids);
  }

  /** The same children in the same places. */
  ghost predicate SameKids(r: Rows, q: Rows, t: Table, p: Id) {
    forall id :: (
      var k := Key(t, id);
      && ((k in r && r[k].parent == p) <==> (k in q && q[k].parent == p))
      && (k in r && r[k].parent == p ==> r[k].ord == q[k].ord))
  }

  lemma IsKidsSame(r: Rows, q: Rows, t: Table, p: Id, ids: seq<Id>)
    requires SameKids(r, q, t, p) && IsKids(r, t, p, ids)
    ensures IsKids(q, t, p, ids)
  {
    forall i | 0 <= i < |ids| ensures Key(t, ids[i]) in q && q[Key(t, ids[i])].parent == p && q[Key(t, ids[i])].ord == i {
      assert Key(t, ids[i]) in r;
    }
  }

  lemma KidsSame(r: Rows, q: Rows, t: Table, p: Id)
    requires SameKids(r, q, t, p)
    ensures Kids(r, t, p) == Kids(q, t, p)
  {
    if ids :| IsKids(r, t, p, ids) {
      IsKidsSame(r, q, t, p, ids);
      KidsAre(r, t, p, ids);
      KidsAre(q, t, p, ids);
    } else if ids :| IsKids(q, t, p, ids) {
      IsKidsSame(q, r, t, p, ids);
    }
  }

  ghost predicate RowsFit(rows: Rows) {
    forall k | k in rows :: Fits(k.table, rows[k].data)
  }

  // --- One node ---

  ghost function GroupOf(rows: Rows, id: Id): SenseGroup
    requires RowsFit(rows) && Key(Groups, id) in rows
  {
    SenseGroup(id, rows[Key(Groups, id)].data.name)
  }

  ghost function PronOf(rows: Rows, id: Id): Pronunciation
    requires RowsFit(rows) && Key(Prons, id) in rows
  {
    var r := rows[Key(Prons, id)];
    Pronunciation(id, r.data.dictPhonetic, r.data.actualPron, r.data.style, r.audio)
  }

  ghost function VariantOf(rows: Rows, id: Id): GrammarVariant
    requires RowsFit(rows) && Key(Variants, id) in rows
  {
    var r := rows[Key(Variants, id)];
    GrammarVariant(id, r.data.variantDialect, NormalText(r.data.content), r.audio)
  }

  ghost function DefOf(rows: Rows, id: Id): Definition
    requires RowsFit(rows) && Key(Defs, id) in rows
  {
    var r := rows[Key(Defs, id)];
    Definition(id, r.data.defLevel, r.data.defType, NormalText(r.data.text), r.data.structure, r.audio)
  }

  ghost function SentOf(rows: Rows, id: Id): Sentence
    requires RowsFit(rows) && Key(Sents, id) in rows
  {
    var r := rows[Key(Sents, id)];
    Sentence(id, r.data.sourceExample,
      if r.data.sentence.Some? then Some(NormalText(r.data.sentence.value)) else None, r.audio)
  }

  ghost function RelOf(rows: Rows, id: Id): Relation
    requires RowsFit(rows) && Key(Rels, id) in rows
  {
    var r := rows[Key(Rels, id)];
    Relation(id, r.data.relation, r.data.target, r.data.score)
  }

  // --- Lists of nodes, in sort order ---

  ghost function GroupsOf(rows: Rows, w: Id): (r: seq<SenseGroup>)
    requires RowsFit(rows)
    ensures var ks := Kids(rows, Groups, w); |r| == |ks| && forall i | 0 <= i < |ks| :: r[i] == GroupOf(rows, ks[i])
  {
    var ks := Kids(rows, Groups, w);
    seq(|ks|, i requires 0 <= i < |ks| => GroupOf(rows, ks[i]))
  }

  ghost function PronsOf(rows: Rows, form: Id): (r: seq<Pronunciation>)
    requires RowsFit(rows)
    ensures var ks := Kids(rows, Prons, form); |r| == |ks| && forall i | 0 <= i < |ks| :: r[i] == PronOf(rows, ks[i])
  {
    var ks := Kids(rows, Prons, form);
    seq(|ks|, i requires 0 <= i < |ks| => PronOf(rows, ks[i]))
  }

  ghost function FormOf(rows: Rows, id: Id): Form
    requires RowsFit(rows) && Key(Forms, id) in rows
  {
    var d := rows[Key(Forms, id)].data;
    Form(id, d.dialect, d.formType, d.spelling, PronsOf(rows, id))
  }

  ghost function FormsOf(rows: Rows, pos: Id): (r: seq<Form>)
    requires RowsFit(rows)
    ensures var ks := Kids(rows, Forms, pos); |r| == |ks| && forall i | 0 <= i < |ks| :: r[i] == FormOf(rows, ks[i])
  {
    var ks := Kids(rows, Forms, pos);
    seq(|ks|, i requires 0 <= i < |ks| => FormOf(rows, ks[i]))
  }

  ghost function VariantsOf(rows: Rows, struct: Id): (r: seq<GrammarVariant>)
    requires RowsFit(rows)
    ensures var ks := Kids(rows, Variants, struct); |r| == |ks| && forall i | 0 <= i < |ks| :: r[i] == VariantOf(rows, ks[i])
  {
    var ks := Kids(rows, Variants, struct);
    seq(|ks|, i requires 0 <= i < |ks| => VariantOf(rows, ks[i]))
  }

  ghost function StructOf(rows: Rows, id: Id): GrammarStructure
    requires RowsFit(rows)
  {
    GrammarStructure(id, VariantsOf(rows, id))
  }

  ghost function StructsOf(rows: Rows, pos: Id): (r: seq<GrammarStructure>)
    requires RowsFit(rows)
    ensures var ks := Kids(rows, Structs, pos); |r| == |ks| && forall i | 0 <= i < |ks| :: r[i] == StructOf(rows, ks[i])
  {
    var ks := Kids(rows, Structs, pos);
    seq(|ks|, i requires 0 <= i < |ks| => StructOf(rows, ks[i]))
  }

  ghost function DefsOf(rows: Rows, sense: Id): (r: seq<Definition>)
    requires RowsFit(rows)
    ensures var ks := Kids(rows, Defs, sense); |r| == |ks| && forall i | 0 <= i < |ks| :: r[i] == DefOf(rows, ks[i])
  {
    var ks := Kids(rows, Defs, sense);
    seq(|ks|, i requires 0 <= i < |ks| => DefOf(rows, ks[i]))
  }

  ghost function SentsOf(rows: Rows, sense: Id): (r: seq<Sentence>)
    requires RowsFit(rows)
    ensures var ks := Kids(rows, Sents, sense); |r| == |ks| && forall i | 0 <= i < |ks| :: r[i] == SentOf(rows, ks[i])
  {
    var ks := Kids(rows, Sents, sense);
    seq(|ks|, i requires 0 <= i < |ks| => SentOf(rows, ks[i]))
  }

  ghost function RelsOf(rows: Rows, sense: Id): (r: seq<Relation>)
    requires RowsFit(rows)
    ensures var ks := Kids(rows, Rels, sense); |r| == |ks| && forall i | 0 <= i < |ks| :: r[i] == RelOf(rows, ks[i])
  {
    var ks := Kids(rows, Rels, sense);
    seq(|ks|, i requires 0 <= i < |ks| => RelOf(rows, ks[i]))
  }

  ghost function SenseOf(rows: Rows, id: Id): Sense
    requires RowsFit(rows) && Key(Senses, id) in rows
  {
    var d := rows[Key(Senses, id)].data;
    Sense(id, d.subPos, d.level, d.group, OrBlank(d.frequency), d.dependsOnContext,
      DefsOf(rows, id), SentsOf(rows, id), RelsOf(rows, id))
  }

  ghost function SensesOf(rows: Rows, pos: Id): (r: seq<Sense>)
    requires RowsFit(rows)
    ensures var ks := Kids(rows, Senses, pos); |r| == |ks| && forall i | 0 <= i < |ks| :: r[i] == SenseOf(rows, ks[i])
  {
    var ks := Kids(rows, Senses, pos);
    seq(|ks|, i requires 0 <= i < |ks| => SenseOf(rows, ks[i]))
  }

  ghost function PosOf(rows: Rows, id: Id): POS
    requires RowsFit(rows) && Key(Pos, id) in rows
  {
    POS(id, rows[Key(Pos, id)].data.pos, FormsOf(rows, id), StructsOf(rows, id), SensesOf(rows, id))
  }

  ghost function TabsOf(rows: Rows, w: Id): (r: seq<POS>)
    requires RowsFit(rows)
    ensures var ks := Kids(rows, Pos, w); |r| == |ks| && forall i | 0 <= i < |ks| :: r[i] == PosOf(rows, ks[i])
  {
    var ks := Kids(rows, Pos, w);
    seq(|ks|, i requires 0 <= i < |ks| => PosOf(rows, ks[i]))
  }

  /** The whole entry. */
  ghost function TreeOf(db: DB, w: Id): Word
    requires RowsFit(db.rows) && w in db.words
  {
    var r := db.words[w];
    Word(w, r.kind, r.headword, OrBlank(r.frequency), r.mode, r.dialects, r.status, r.createdBy, r.token,
      GroupsOf(db.rows, w), TabsOf(db.rows, w))
  }
}
