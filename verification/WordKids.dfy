/** The children lists of the rows a save leaves: those of the body, and everyone else's as before. */
module WordKids {
  import opened Basics
  import opened WordModel
  import opened WordTables
  import opened WordValidation
  import opened WordPositions
  import opened WordStore
  import opened WordRead
  import opened WordSave
  import opened WordBody
  import opened WordReplace

  function PosId(p: POS): Id { p.id }
  function FormId(f: Form): Id { f.id }
  function SenseId(s: Sense): Id { s.id }

  /** Rows after a save that could be done. */
  ghost predicate Stored(db: DB, w: Id, b: SaveInput, rows: Rows) {
    && Rooted(db) && NodesOk(b)
    && BodyStored(db, w, b, rows) && OthersKept(db, w, b, rows)
    && Split(db, w, rows, Incoming(b))
  }

  ghost predicate Under(w: Id, t: Table, p: Id, n: Node) {
    n.table == t && if Top(t) then p == w else n.parent == p
  }

  ghost predicate ChildAt(b: SaveInput, w: Id, t: Table, p: Id, i: nat, id: Id) {
    exists n | n in Doc(b) :: Under(w, t, p, n) && n.id == id && n.ord == i
  }

  /** ids are the nodes of the body in table t under p, in order. */
  ghost predicate Lists(b: SaveInput, w: Id, t: Table, p: Id, ids: seq<Id>) {
    && (forall i: nat | i < |ids| :: ChildAt(b, w, t, p, i, ids[i]))
    && (forall n | n in Doc(b) && Under(w, t, p, n) :: n.id in ids)
  }

  ghost predicate BodyParent(b: SaveInput, w: Id, t: Table, p: Id) {
    if Top(t) then p == w else ParentKey(t, p) in Incoming(b)
  }

  lemma BodyChild(db: DB, w: Id, b: SaveInput, rows: Rows, t: Table, p: Id, k: Key)
    requires Stored(db, w, b, rows) && BodyParent(b, w, t, p)
    requires k in rows && k.table == t && rows[k].parent == p
    ensures k in Incoming(b)
  {
    hide NodesOk, Doc, SavedData, Unlinked, Split;
    if k !in Incoming(b) {
      SplitRoot(db, w, rows, Incoming(b), k);
      if !Top(t) {
        SplitHas(db, w, rows, Incoming(b), ParentKey(t, p));
        SplitRoot(db, w, rows, Incoming(b), ParentKey(t, p));
      }
    }
  }

  lemma SplitHas(db: DB, w: Id, rows: Rows, mine: set<Key>, k: Key)
    requires Split(db, w, rows, mine) && k in mine
    ensures k in rows && (k in db.rows ==> k in Owned(db.rows, w))
  {
  }

  lemma BodyKids(db: DB, w: Id, b: SaveInput, rows: Rows, t: Table, p: Id, ids: seq<Id>)
    requires Stored(db, w, b, rows) && BodyParent(b, w, t, p) && Lists(b, w, t, p, ids)
    ensures IsKids(rows, t, p, ids)
  {
    hide NodesOk, Doc, SavedData, OthersKept, Split, KeptAudio;
    forall i | 0 <= i < |ids|
      ensures Key(t, ids[i]) in rows && rows[Key(t, ids[i])].parent == p && rows[Key(t, ids[i])].ord == i
    {
      assert ChildAt(b, w, t, p, i, ids[i]);
      var n :| n in Doc(b) && Under(w, t, p, n) && n.id == ids[i] && n.ord == i;
      assert rows[KeyOf(n)] == SavedRow(db, w, b, rows, n);
    }
    forall id | Key(t, id) in rows && rows[Key(t, id)].parent == p ensures id in ids {
      BodyChild(db, w, b, rows, t, p, Key(t, id));
      var n :| n in Doc(b) && KeyOf(n) == Key(t, id);
      assert rows[KeyOf(n)] == SavedRow(db, w, b, rows, n);
    }
  }

  ghost predicate ForeignParentOf(db: DB, w: Id, t: Table, p: Id) {
    if Top(t) then p != w else ParentKey(t, p) in db.rows && ParentKey(t, p) !in Owned(db.rows, w)
  }

  /** Other words keep their children, in place. */
  lemma ForeignKids(db: DB, w: Id, b: SaveInput, rows: Rows, t: Table, p: Id)
    requires Stored(db, w, b, rows) && ForeignParentOf(db, w, t, p)
    ensures SameKids(db.rows, rows, t, p)
  {
    hide NodesOk, Doc, BodyStored, Unlinked;
    forall id ensures var k := Key(t, id);
      && ((k in db.rows && db.rows[k].parent == p) <==> (k in rows && rows[k].parent == p))
      && (k in db.rows && db.rows[k].parent == p ==> db.rows[k].ord == rows[k].ord)
    {
      var k := Key(t, id);
      if k in db.rows && db.rows[k].parent == p {
        if !Top(t) {
          hide Root;
          ForeignParent(db, w, k);
        }
        assert k !in Owned(db.rows, w);
      }
    }
  }

  // --- The lists of the body ---

  lemma TabParent(b: SaveInput, w: Id, p: nat)
    requires p < |b.pos|
    ensures var id := b.pos[p].id;
      BodyParent(b, w, Forms, id) && BodyParent(b, w, Structs, id) && BodyParent(b, w, Senses, id)
  {
    hide Doc;
    PosIn(b, p);
    InKeySet(Doc(b), PosN(p, b.pos[p]));
  }

  lemma FormParent(b: SaveInput, w: Id, p: nat, i: nat)
    requires p < |b.pos| && i < |b.pos[p].forms|
    ensures BodyParent(b, w, Prons, b.pos[p].forms[i].id)
  {
    hide Doc;
    var n := FormN(b.pos[p].id, i, b.pos[p].forms[i]);
    FormIn(b, p, i, n);
    InKeySet(Doc(b), n);
  }

  lemma StructParent(b: SaveInput, w: Id, p: nat, i: nat)
    requires p < |b.pos| && i < |b.pos[p].structures|
    ensures BodyParent(b, w, Variants, b.pos[p].structures[i].id)
  {
    hide Doc;
    var n := StructN(b.pos[p].id, i, b.pos[p].structures[i]);
    StructIn(b, p, i, n);
    InKeySet(Doc(b), n);
  }

  lemma SenseParent(b: SaveInput, w: Id, p: nat, i: nat)
    requires p < |b.pos| && i < |b.pos[p].senses|
    ensures var id := b.pos[p].senses[i].id;
      BodyParent(b, w, Defs, id) && BodyParent(b, w, Sents, id) && BodyParent(b, w, Rels, id)
  {
    hide Doc;
    var n := SenseN(b.pos[p].id, i, b.pos[p].senses[i]);
    SenseIn(b, p, i, n);
    InKeySet(Doc(b), n);
  }

  lemma GroupList(b: SaveInput, w: Id)
    ensures Lists(b, w, Groups, w, Map(b.groups, GroupId))
  {
    hide Doc;
    var ids := Map(b.groups, GroupId);
    forall i: nat | i < |ids| ensures ChildAt(b, w, Groups, w, i, ids[i]) {
      GroupIn(b, i);
      MapAt(b.groups, GroupId, i);
      assert Under(w, Groups, w, GroupN(i, b.groups[i]));
    }
    forall n | n in Doc(b) && Under(w, Groups, w, n) ensures n.id in ids {
      var i := LocateGroup(b, n);
      MapAt(b.groups, GroupId, i);
    }
  }

  lemma TabList(b: SaveInput, w: Id)
    ensures Lists(b, w, Pos, w, Map(b.pos, PosId))
  {
    hide Doc;
    var ids := Map(b.pos, PosId);
    forall i: nat | i < |ids| ensures ChildAt(b, w, Pos, w, i, ids[i]) {
      PosIn(b, i);
      MapAt(b.pos, PosId, i);
      assert Under(w, Pos, w, PosN(i, b.pos[i]));
    }
    forall n | n in Doc(b) && Under(w, Pos, w, n) ensures n.id in ids {
      var i := LocatePos(b, n);
      MapAt(b.pos, PosId, i);
    }
  }

  lemma OneTab(b: SaveInput, p: nat, q: nat)
    requires IdsOk(Doc(b)) && p < |b.pos| && q < |b.pos| && b.pos[p].id == b.pos[q].id
    ensures p == q
  {
    hide Doc, IdsOk;
    PosIn(b, p);
    PosIn(b, q);
    OneNode(b, PosN(p, b.pos[p]), PosN(q, b.pos[q]));
  }

  lemma OneForm(b: SaveInput, p: nat, i: nat, q: nat, j: nat)
    requires IdsOk(Doc(b)) && p < |b.pos| && i < |b.pos[p].forms| && q < |b.pos| && j < |b.pos[q].forms|
    requires b.pos[p].forms[i].id == b.pos[q].forms[j].id
    ensures p == q && i == j
  {
    hide Doc, IdsOk;
    var m, n := FormN(b.pos[p].id, i, b.pos[p].forms[i]), FormN(b.pos[q].id, j, b.pos[q].forms[j]);
    FormIn(b, p, i, m);
    FormIn(b, q, j, n);
    OneNode(b, m, n);
    OneTab(b, p, q);
  }

  lemma OneStruct(b: SaveInput, p: nat, i: nat, q: nat, j: nat)
    requires IdsOk(Doc(b)) && p < |b.pos| && i < |b.pos[p].structures| && q < |b.pos| && j < |b.pos[q].structures|
    requires b.pos[p].structures[i].id == b.pos[q].structures[j].id
    ensures p == q && i == j
  {
    hide Doc, IdsOk;
    var m, n := StructN(b.pos[p].id, i, b.pos[p].structures[i]), StructN(b.pos[q].id, j, b.pos[q].structures[j]);
    StructIn(b, p, i, m);
    StructIn(b, q, j, n);
    OneNode(b, m, n);
    OneTab(b, p, q);
  }

  lemma OneSense(b: SaveInput, p: nat, i: nat, q: nat, j: nat)
    requires IdsOk(Doc(b)) && p < |b.pos| && i < |b.pos[p].senses| && q < |b.pos| && j < |b.pos[q].senses|
    requires b.pos[p].senses[i].id == b.pos[q].senses[j].id
    ensures p == q && i == j
  {
    hide Doc, IdsOk;
    var m, n := SenseN(b.pos[p].id, i, b.pos[p].senses[i]), SenseN(b.pos[q].id, j, b.pos[q].senses[j]);
    SenseIn(b, p, i, m);
    SenseIn(b, q, j, n);
    OneNode(b, m, n);
    OneTab(b, p, q);
  }

  lemma FormList(b: SaveInput, w: Id, p: nat)
    requires IdsOk(Doc(b)) && p < |b.pos|
    ensures Lists(b, w, Forms, b.pos[p].id, Map(b.pos[p].forms, FormId))
  {
    hide Doc, IdsOk;
    var P, xs := b.pos[p].id, b.pos[p].forms;
    var ids := Map(xs, FormId);
    forall i: nat | i < |ids| ensures ChildAt(b, w, Forms, P, i, ids[i]) {
      var n := FormN(P, i, xs[i]);
      FormIn(b, p, i, n);
      MapAt(xs, FormId, i);
      assert Under(w, Forms, P, n);
    }
    forall n | n in Doc(b) && Under(w, Forms, P, n) ensures n.id in ids {
      var q, i := InFormAt(b, n);
      OneTab(b, p, q);
      MapAt(xs, FormId, i);
    }
  }

  lemma StructList(b: SaveInput, w: Id, p: nat)
    requires IdsOk(Doc(b)) && p < |b.pos|
    ensures Lists(b, w, Structs, b.pos[p].id, Map(b.pos[p].structures, StructId))
  {
    hide Doc, IdsOk;
    var P, xs := b.pos[p].id, b.pos[p].structures;
    var ids := Map(xs, StructId);
    forall i: nat | i < |ids| ensures ChildAt(b, w, Structs, P, i, ids[i]) {
      var n := StructN(P, i, xs[i]);
      StructIn(b, p, i, n);
      MapAt(xs, StructId, i);
      assert Under(w, Structs, P, n);
    }
    forall n | n in Doc(b) && Under(w, Structs, P, n) ensures n.id in ids {
      var q, i := InStructAt(b, n);
      OneTab(b, p, q);
      MapAt(xs, StructId, i);
    }
  }

  lemma SenseList(b: SaveInput, w: Id, p: nat)
    requires IdsOk(Doc(b)) && p < |b.pos|
    ensures Lists(b, w, Senses, b.pos[p].id, Map(b.pos[p].senses, SenseId))
  {
    hide Doc, IdsOk;
    var P, xs := b.pos[p].id, b.pos[p].senses;
    var ids := Map(xs, SenseId);
    forall i: nat | i < |ids| ensures ChildAt(b, w, Senses, P, i, ids[i]) {
      var n := SenseN(P, i, xs[i]);
      SenseIn(b, p, i, n);
      MapAt(xs, SenseId, i);
      assert Under(w, Senses, P, n);
    }
    forall n | n in Doc(b) && Under(w, Senses, P, n) ensures n.id in ids {
      var q, i := InSenseAt(b, n);
      OneTab(b, p, q);
      MapAt(xs, SenseId, i);
    }
  }

  lemma PronList(b: SaveInput, w: Id, p: nat, f: nat)
    requires IdsOk(Doc(b)) && p < |b.pos| && f < |b.pos[p].forms|
    ensures Lists(b, w, Prons, b.pos[p].forms[f].id, Map(b.pos[p].forms[f].pronunciations, PronId))
  {
    hide Doc, IdsOk;
    var P, xs := b.pos[p].forms[f].id, b.pos[p].forms[f].pronunciations;
    var ids := Map(xs, PronId);
    forall i: nat | i < |ids| ensures ChildAt(b, w, Prons, P, i, ids[i]) {
      var n := PronN(P, i, xs[i]);
      FormIn(b, p, f, n);
      MapAt(xs, PronId, i);
      assert Under(w, Prons, P, n);
    }
    forall n | n in Doc(b) && Under(w, Prons, P, n) ensures n.id in ids {
      var q, g := InFormAt(b, n);
      OneForm(b, p, f, q, g);
      var i: nat :| i < |xs| && n == PronN(P, i, xs[i]);
      MapAt(xs, PronId, i);
    }
  }

  lemma VariantList(b: SaveInput, w: Id, p: nat, g: nat)
    requires IdsOk(Doc(b)) && p < |b.pos| && g < |b.pos[p].structures|
    ensures Lists(b, w, Variants, b.pos[p].structures[g].id, Map(b.pos[p].structures[g].variants, VariantId))
  {
    hide Doc, IdsOk;
    var P, xs := b.pos[p].structures[g].id, b.pos[p].structures[g].variants;
    var ids := Map(xs, VariantId);
    forall i: nat | i < |ids| ensures ChildAt(b, w, Variants, P, i, ids[i]) {
      var n := VariantN(P, i, xs[i]);
      StructIn(b, p, g, n);
      MapAt(xs, VariantId, i);
      assert Under(w, Variants, P, n);
    }
    forall n | n in Doc(b) && Under(w, Variants, P, n) ensures n.id in ids {
      var q, h := InStructAt(b, n);
      OneStruct(b, p, g, q, h);
      var i: nat :| i < |xs| && n == VariantN(P, i, xs[i]);
      MapAt(xs, VariantId, i);
    }
  }

  lemma DefList(b: SaveInput, w: Id, p: nat, s: nat)
    requires IdsOk(Doc(b)) && p < |b.pos| && s < |b.pos[p].senses|
    ensures Lists(b, w, Defs, b.pos[p].senses[s].id, Map(b.pos[p].senses[s].definitions, DefId))
  {
    hide Doc, IdsOk;
    var P, xs := b.pos[p].senses[s].id, b.pos[p].senses[s].definitions;
    var ids := Map(xs, DefId);
    forall i: nat | i < |ids| ensures ChildAt(b, w, Defs, P, i, ids[i]) {
      var n := DefN(P, i, xs[i]);
      SenseIn(b, p, s, n);
      MapAt(xs, DefId, i);
      assert Under(w, Defs, P, n);
    }
    forall n | n in Doc(b) && Under(w, Defs, P, n) ensures n.id in ids {
      var q, r := InSenseAt(b, n);
      OneSense(b, p, s, q, r);
      var i: nat :| i < |xs| && n == DefN(P, i, xs[i]);
      MapAt(xs, DefId, i);
    }
  }

  lemma SentList(b: SaveInput, w: Id, p: nat, s: nat)
    requires IdsOk(Doc(b)) && p < |b.pos| && s < |b.pos[p].senses|
    ensures Lists(b, w, Sents, b.pos[p].senses[s].id, Map(b.pos[p].senses[s].sentences, SentId))
  {
    hide Doc, IdsOk;
    var P, xs := b.pos[p].senses[s].id, b.pos[p].senses[s].sentences;
    var ids := Map(xs, SentId);
    forall i: nat | i < |ids| ensures ChildAt(b, w, Sents, P, i, ids[i]) {
      var n := SentN(P, i, xs[i]);
      SenseIn(b, p, s, n);
      MapAt(xs, SentId, i);
      assert Under(w, Sents, P, n);
    }
    forall n | n in Doc(b) && Under(w, Sents, P, n) ensures n.id in ids {
      var q, r := InSenseAt(b, n);
      OneSense(b, p, s, q, r);
      var i: nat :| i < |xs| && n == SentN(P, i, xs[i]);
      MapAt(xs, SentId, i);
    }
  }

  lemma RelList(b: SaveInput, w: Id, p: nat, s: nat)
    requires IdsOk(Doc(b)) && p < |b.pos| && s < |b.pos[p].senses|
    ensures Lists(b, w, Rels, b.pos[p].senses[s].id, Map(b.pos[p].senses[s].relations, RelId))
  {
    hide Doc, IdsOk;
    var P, xs := b.pos[p].senses[s].id, b.pos[p].senses[s].relations;
    var ids := Map(xs, RelId);
    forall i: nat | i < |ids| ensures ChildAt(b, w, Rels, P, i, ids[i]) {
      var n := RelN(P, i, xs[i]);
      SenseIn(b, p, s, n);
      MapAt(xs, RelId, i);
      assert Under(w, Rels, P, n);
    }
    forall n | n in Doc(b) && Under(w, Rels, P, n) ensures n.id in ids {
      var q, r := InSenseAt(b, n);
      OneSense(b, p, s, q, r);
      var i: nat :| i < |xs| && n == RelN(P, i, xs[i]);
      MapAt(xs, RelId, i);
    }
  }
}
