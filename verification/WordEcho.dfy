/**
 Sending a loaded draft back unchanged: it passes validation, the save goes through, and
 nothing changes but the token and the gloss of relations with a live sense.
 */
module WordEcho {
  import opened Basics
  import opened Text
  import opened WordModel
  import opened WordTables
  import opened WordValidation
  import opened WordPositions
  import opened WordStore
  import opened WordRead
  import opened WordGloss
  import opened WordAlike
  import opened WordSave
  import opened WordBody
  import opened WordReplace
  import opened WordKids
  import opened WordRoundTrip
  import opened WordInvariant
  import opened WordFrame
  import opened WordSaveInvariant

  // --- Validation only drops the snapshots of a valid body ---

  predicate CleanSense(a: Sense, b: Sense) {
    && b == a.(relations := b.relations) && |a.relations| == |b.relations|
    && forall k: nat | k < |a.relations| :: b.relations[k] == NormalRelation(a.relations[k])
  }

  predicate CleanTab(a: POS, b: POS) {
    && b == a.(senses := b.senses) && |a.senses| == |b.senses|
    && forall i: nat | i < |a.senses| :: CleanSense(a.senses[i], b.senses[i])
  }

  /** b is a without the snapshots of its relations. */
  predicate Clean(a: SaveInput, b: SaveInput) {
    && b == a.(pos := b.pos) && |a.pos| == |b.pos|
    && forall p: nat | p < |a.pos| :: CleanTab(a.pos[p], b.pos[p])
  }

  lemma {:induction false} MapFixed<A>(s: seq<A>, f: A -> A)
    requires forall i: nat | i < |s| :: f(s[i]) == s[i]
    ensures Map(s, f) == s
  {
    forall i: nat | i < |s| ensures Map(s, f)[i] == s[i] {
      MapAt(s, f, i);
    }
  }

  lemma FreqFixed(f: string)
    requires FrequencyOk(f)
    ensures NormalFreq(f) == f
  {
  }

  lemma ShortFixed(s: string)
    requires ShortOk(s)
    ensures TrimSpace(s) == s
  {
    TrimmedFixed(s);
  }

  lemma PronFixed(p: Pronunciation)
    requires PronOk(p)
    ensures NormalPron(p) == p
  {
    ShortFixed(p.dictPhonetic);
    ShortFixed(p.actualPron);
    hide TrimSpace;
  }

  lemma FormFixed(allowed: set<Dialect>, f: Form)
    requires FormOk(allowed, f)
    ensures NormalForm(f) == f
  {
    ShortFixed(f.spelling);
    hide NormalPron, ShortOk, TrimSpace, PronOk;
    forall i: nat | i < |f.pronunciations| ensures NormalPron(f.pronunciations[i]) == f.pronunciations[i] {
      PronFixed(f.pronunciations[i]);
    }
    MapFixed(f.pronunciations, NormalPron);
  }

  lemma StructFixed(allowed: set<Dialect>, g: GrammarStructure)
    requires StructOk(allowed, g)
    ensures NormalStruct(g) == g
  {
    forall i: nat | i < |g.variants| ensures NormalVariant(g.variants[i]) == g.variants[i] {
      assert VariantOk(allowed, g.variants[i]);
    }
    MapFixed(g.variants, NormalVariant);
  }

  lemma SenseCleaned(groups: set<Id>, structs: set<Id>, s: Sense)
    requires SenseOk(groups, structs, s)
    ensures CleanSense(s, NormalSense(s))
  {
    FreqFixed(s.frequency);
    hide FrequencyOk, NormalFreq, NormalText, TextOk;
    forall i: nat | i < |s.definitions| ensures NormalDefinition(s.definitions[i]) == s.definitions[i] {
      assert DefinitionOk(structs, s.definitions[i]);
    }
    MapFixed(s.definitions, NormalDefinition);
    forall i: nat | i < |s.sentences| ensures NormalSentence(s.sentences[i]) == s.sentences[i] {
      assert SentenceOk(s.sentences[i]);
    }
    MapFixed(s.sentences, NormalSentence);
    forall k: nat | k < |s.relations| ensures NormalSense(s).relations[k] == NormalRelation(s.relations[k]) {
      MapAt(s.relations, NormalRelation, k);
    }
  }

  lemma TabCleaned(allowed: set<Dialect>, groups: set<Id>, p: POS)
    requires PosOk(allowed, groups, p)
    ensures CleanTab(p, NormalPos(p))
  {
    hide FormOk, StructOk, SenseOk, NormalForm, NormalStruct, NormalSense, CleanSense;
    forall i: nat | i < |p.forms| ensures NormalForm(p.forms[i]) == p.forms[i] {
      FormFixed(allowed, p.forms[i]);
    }
    MapFixed(p.forms, NormalForm);
    forall i: nat | i < |p.structures| ensures NormalStruct(p.structures[i]) == p.structures[i] {
      StructFixed(allowed, p.structures[i]);
    }
    MapFixed(p.structures, NormalStruct);
    forall i: nat | i < |p.senses| ensures CleanSense(p.senses[i], NormalPos(p).senses[i]) {
      MapAt(p.senses, NormalSense, i);
      SenseCleaned(groups, StructIds(p.structures), p.senses[i]);
    }
  }

  lemma GroupFixed(g: SenseGroup)
    requires GroupOk(g)
    ensures NormalGroup(g) == g
  {
    ShortFixed(g.name);
  }

  lemma GroupsFixed(gs: seq<SenseGroup>)
    requires GroupsOk(gs)
    ensures Map(gs, NormalGroup) == gs
  {
    hide GroupOk, NormalGroup;
    forall i: nat | i < |gs| ensures NormalGroup(gs[i]) == gs[i] {
      GroupFixed(gs[i]);
    }
    MapFixed(gs, NormalGroup);
  }

  lemma TabsCleaned(allowed: set<Dialect>, groups: set<Id>, ps: seq<POS>)
    requires TabsOk(allowed, groups, ps)
    ensures forall p: nat | p < |ps| :: CleanTab(ps[p], Map(ps, NormalPos)[p])
  {
    hide PosOk, NormalPos, CleanTab;
    forall p: nat | p < |ps| ensures CleanTab(ps[p], Map(ps, NormalPos)[p]) {
      MapAt(ps, NormalPos, p);
      TabCleaned(allowed, groups, ps[p]);
    }
  }

  /** Normalization is the identity on valid bodies, up to the snapshots of relations. */
  lemma ValidCleaned(b: SaveInput)
    requires Valid(b)
    ensures Clean(b, Normalized(b))
  {
    hide FrequencyOk, NormalFreq, ModeOk, TabsOk, GroupsOk, CleanTab, IdsOk, Doc, DistinctPos, AllowedSet, GroupIds, Map;
    FreqFixed(b.frequency);
    GroupsFixed(b.groups);
    TabsCleaned(AllowedSet(b.mode, b.dialects), GroupIds(b.groups), b.pos);
  }

  // --- Clean bodies have the same nodes ---

  lemma {:induction false} FlatSame<T>(ctx: Id, a: seq<T>, b: seq<T>, f: (Id, nat, T) -> seq<Node>)
    requires |a| == |b| && forall i: nat | i < |a| :: f(ctx, i, a[i]) == f(ctx, i, b[i])
    ensures Flat(ctx, a, f) == Flat(ctx, b, f)
  {
    if a == [] {
    } else {
      var k := |a| - 1;
      assert forall i: nat | i < k :: a[..k][i] == a[i] && b[..k][i] == b[i];
      FlatSame(ctx, a[..k], b[..k], f);
    }
  }

  lemma SenseSameNodes(pos: Id, i: nat, a: Sense, b: Sense)
    requires CleanSense(a, b)
    ensures SenseDocNodes(pos, i, a) == SenseDocNodes(pos, i, b)
  {
    FlatSame(a.id, a.relations, b.relations, RelNodes);
  }

  lemma TabSameNodes(i: nat, a: POS, b: POS)
    requires CleanTab(a, b)
    ensures PosDocNodes(NIL, i, a) == PosDocNodes(NIL, i, b)
  {
    hide CleanSense, SenseDocNodes;
    forall k: nat | k < |a.senses| ensures SenseDocNodes(a.id, k, a.senses[k]) == SenseDocNodes(a.id, k, b.senses[k]) {
      SenseSameNodes(a.id, k, a.senses[k], b.senses[k]);
    }
    FlatSame(a.id, a.senses, b.senses, SenseDocNodes);
  }

  lemma CleanSameDoc(a: SaveInput, b: SaveInput)
    requires Clean(a, b)
    ensures Doc(a) == Doc(b)
  {
    hide CleanTab, PosDocNodes;
    forall p: nat | p < |a.pos| ensures PosDocNodes(NIL, p, a.pos[p]) == PosDocNodes(NIL, p, b.pos[p]) {
      TabSameNodes(p, a.pos[p], b.pos[p]);
    }
    FlatSame(NIL, a.pos, b.pos, PosDocNodes);
  }

  lemma CleanAlike(a: SaveInput, b: SaveInput)
    requires Clean(a, b) && NodesOk(a)
    ensures Alike(a, b)
  {
    forall p: nat | p < |a.pos| ensures AlikeTab(a.pos[p], b.pos[p]) {
      forall i: nat | i < |a.pos[p].senses| ensures AlikeSense(a.pos[p].senses[i], b.pos[p].senses[i]) {
        SensesOk(a, p, i);
        CleanSenseAlike(GroupIds(a.groups), StructIds(a.pos[p].structures), a.pos[p].senses[i], b.pos[p].senses[i]);
      }
      hide NodesOk, AlikeSense, CleanSense;
    }
    hide NodesOk, AlikeTab;
  }

  lemma CleanSenseAlike(groups: set<Id>, structs: set<Id>, a: Sense, b: Sense)
    requires CleanSense(a, b) && SenseOk(groups, structs, a)
    ensures AlikeSense(a, b)
  {
    hide FrequencyOk, DefinitionOk, SentenceOk;
    forall k: nat | k < |a.relations| ensures RelationOk(a.relations[k]) { }
  }

  /** A valid body stays valid under normalization. */
  lemma ValidNormalized(b: SaveInput)
    requires Valid(b)
    ensures Valid(Normalized(b)) && Clean(b, Normalized(b))
  {
    ValidCleaned(b);
    hide NodesOk, Normalized, FrequencyOk, ModeOk, Alike;
    CleanAlike(b, Normalized(b));
    AlikeOk(b, Normalized(b));
  }

  // --- The nodes of a loaded tree are the rows of its entry ---

  lemma KidRow(db: DB, w: Id, t: Table, p: Id, i: nat)
    requires RowsFit(db.rows) && AllListed(db.rows) && Mine(db.rows, w, t, p) && i < |Kids(db.rows, t, p)|
    ensures Key(t, Kids(db.rows, t, p)[i]) in Owned(db.rows, w)
  {
    hide RowsFit, IsKids;
    assert Listed(db.rows, t, p);
    KidOf(db.rows, t, p, i);
    var k := Key(t, Kids(db.rows, t, p)[i]);
    if Top(t) {
      RootOfTop(db.rows, k);
    } else {
      RootOfChild(db.rows, k);
    }
  }

  ghost predicate Loaded(db: DB, w: Id, t: Word) {
    RowsFit(db.rows) && AllListed(db.rows) && w in db.words && t == TreeOf(db, w)
  }

  lemma GroupOwned(db: DB, w: Id, t: Word, i: nat)
    requires Loaded(db, w, t) && i < |t.groups|
    ensures Key(Groups, t.groups[i].id) in Owned(db.rows, w)
  {
    hide RowsFit, AllListed, TabsOf, Owned;
    KidRow(db, w, Groups, w, i);
  }

  lemma TabOwned(db: DB, w: Id, t: Word, p: nat)
    requires Loaded(db, w, t) && p < |t.pos|
    ensures Key(Pos, t.pos[p].id) in Owned(db.rows, w) && t.pos[p] == PosOf(db.rows, t.pos[p].id)
  {
    hide RowsFit, AllListed, GroupsOf, Owned, FormsOf, StructsOf, SensesOf;
    KidRow(db, w, Pos, w, p);
  }

  lemma OwnedIn(rows: Rows, w: Id, k: Key)
    requires k in Owned(rows, w)
    ensures k in rows
  {
  }

  lemma OwnedTab(rows: Rows, w: Id, id: Id)
    requires Key(Pos, id) in Owned(rows, w)
    ensures Mine(rows, w, Forms, id) && Mine(rows, w, Structs, id) && Mine(rows, w, Senses, id)
  {
  }

  lemma OwnedForm(rows: Rows, w: Id, id: Id)
    requires Key(Forms, id) in Owned(rows, w)
    ensures Mine(rows, w, Prons, id)
  {
  }

  lemma OwnedStruct(rows: Rows, w: Id, id: Id)
    requires Key(Structs, id) in Owned(rows, w)
    ensures Mine(rows, w, Variants, id)
  {
  }

  lemma OwnedSense(rows: Rows, w: Id, id: Id)
    requires Key(Senses, id) in Owned(rows, w)
    ensures Mine(rows, w, Defs, id) && Mine(rows, w, Sents, id) && Mine(rows, w, Rels, id)
  {
  }

  /** Element i of the list is child i. */
  lemma FormAt(rows: Rows, x: POS, i: nat)
    requires RowsFit(rows) && Key(Pos, x.id) in rows && x == PosOf(rows, x.id)
    requires i < |x.forms| || i < |Kids(rows, Forms, x.id)|
    ensures i < |x.forms| && i < |Kids(rows, Forms, x.id)|
    ensures var id := Kids(rows, Forms, x.id)[i]; Key(Forms, id) in rows && x.forms[i] == FormOf(rows, id) && x.forms[i].id == id
  {
    hide RowsFit, Kids;
  }

  lemma FormOwned(db: DB, w: Id, t: Word, p: nat, i: nat)
    requires Loaded(db, w, t) && p < |t.pos| && i < |t.pos[p].forms|
    ensures var id := t.pos[p].forms[i].id;
      Key(Forms, id) in Owned(db.rows, w) && t.pos[p].forms[i] == FormOf(db.rows, id)
  {
    hide *;
    LoadedParts(db, w, t);
    TabOwned(db, w, t, p);
    OwnedIn(db.rows, w, Key(Pos, t.pos[p].id));
    FormAt(db.rows, t.pos[p], i);
    OwnedTab(db.rows, w, t.pos[p].id);
    KidRow(db, w, Forms, t.pos[p].id, i);
  }

  /** Element i of the list is child i. */
  lemma StructAt(rows: Rows, x: POS, i: nat)
    requires RowsFit(rows) && Key(Pos, x.id) in rows && x == PosOf(rows, x.id)
    requires i < |x.structures| || i < |Kids(rows, Structs, x.id)|
    ensures i < |x.structures| && i < |Kids(rows, Structs, x.id)|
    ensures var id := Kids(rows, Structs, x.id)[i]; Key(Structs, id) in rows && x.structures[i] == StructOf(rows, id) && x.structures[i].id == id
  {
    hide RowsFit, Kids;
  }

  lemma StructOwned(db: DB, w: Id, t: Word, p: nat, i: nat)
    requires Loaded(db, w, t) && p < |t.pos| && i < |t.pos[p].structures|
    ensures var id := t.pos[p].structures[i].id;
      Key(Structs, id) in Owned(db.rows, w) && t.pos[p].structures[i] == StructOf(db.rows, id)
  {
    hide *;
    LoadedParts(db, w, t);
    TabOwned(db, w, t, p);
    OwnedIn(db.rows, w, Key(Pos, t.pos[p].id));
    StructAt(db.rows, t.pos[p], i);
    OwnedTab(db.rows, w, t.pos[p].id);
    KidRow(db, w, Structs, t.pos[p].id, i);
  }

  /** Element i of the list is child i. */
  lemma SenseAt(rows: Rows, x: POS, i: nat)
    requires RowsFit(rows) && Key(Pos, x.id) in rows && x == PosOf(rows, x.id)
    requires i < |x.senses| || i < |Kids(rows, Senses, x.id)|
    ensures i < |x.senses| && i < |Kids(rows, Senses, x.id)|
    ensures var id := Kids(rows, Senses, x.id)[i]; Key(Senses, id) in rows && x.senses[i] == SenseOf(rows, id) && x.senses[i].id == id
  {
    hide RowsFit, Kids;
  }

  lemma SenseOwned(db: DB, w: Id, t: Word, p: nat, i: nat)
    requires Loaded(db, w, t) && p < |t.pos| && i < |t.pos[p].senses|
    ensures var id := t.pos[p].senses[i].id;
      Key(Senses, id) in Owned(db.rows, w) && t.pos[p].senses[i] == SenseOf(db.rows, id)
  {
    hide *;
    LoadedParts(db, w, t);
    TabOwned(db, w, t, p);
    OwnedIn(db.rows, w, Key(Pos, t.pos[p].id));
    SenseAt(db.rows, t.pos[p], i);
    OwnedTab(db.rows, w, t.pos[p].id);
    KidRow(db, w, Senses, t.pos[p].id, i);
  }

  /** Element i of the list is child i. */
  lemma PronAt(rows: Rows, x: Form, i: nat)
    requires RowsFit(rows) && Key(Forms, x.id) in rows && x == FormOf(rows, x.id)
    requires i < |x.pronunciations| || i < |Kids(rows, Prons, x.id)|
    ensures i < |x.pronunciations| && i < |Kids(rows, Prons, x.id)|
    ensures var id := Kids(rows, Prons, x.id)[i]; Key(Prons, id) in rows && x.pronunciations[i] == PronOf(rows, id) && x.pronunciations[i].id == id
  {
    hide RowsFit, Kids;
  }

  lemma PronOwned(db: DB, w: Id, t: Word, p: nat, i: nat, k: nat)
    requires Loaded(db, w, t) && p < |t.pos| && i < |t.pos[p].forms| && k < |t.pos[p].forms[i].pronunciations|
    ensures var id := t.pos[p].forms[i].pronunciations[k].id;
      Key(Prons, id) in Owned(db.rows, w) && t.pos[p].forms[i].pronunciations[k] == PronOf(db.rows, id)
  {
    hide *;
    LoadedParts(db, w, t);
    FormOwned(db, w, t, p, i);
    var x := t.pos[p].forms[i];
    OwnedIn(db.rows, w, Key(Forms, x.id));
    PronAt(db.rows, x, k);
    OwnedForm(db.rows, w, x.id);
    KidRow(db, w, Prons, x.id, k);
  }

  /** Element i of the list is child i. */
  lemma VariantAt(rows: Rows, x: GrammarStructure, i: nat)
    requires RowsFit(rows) && Key(Structs, x.id) in rows && x == StructOf(rows, x.id)
    requires i < |x.variants| || i < |Kids(rows, Variants, x.id)|
    ensures i < |x.variants| && i < |Kids(rows, Variants, x.id)|
    ensures var id := Kids(rows, Variants, x.id)[i]; Key(Variants, id) in rows && x.variants[i] == VariantOf(rows, id) && x.variants[i].id == id
  {
    hide RowsFit, Kids;
  }

  lemma VariantOwned(db: DB, w: Id, t: Word, p: nat, i: nat, k: nat)
    requires Loaded(db, w, t) && p < |t.pos| && i < |t.pos[p].structures| && k < |t.pos[p].structures[i].variants|
    ensures var id := t.pos[p].structures[i].variants[k].id;
      Key(Variants, id) in Owned(db.rows, w) && t.pos[p].structures[i].variants[k] == VariantOf(db.rows, id)
  {
    hide *;
    LoadedParts(db, w, t);
    StructOwned(db, w, t, p, i);
    var x := t.pos[p].structures[i];
    OwnedIn(db.rows, w, Key(Structs, x.id));
    VariantAt(db.rows, x, k);
    OwnedStruct(db.rows, w, x.id);
    KidRow(db, w, Variants, x.id, k);
  }

  /** Element i of the list is child i. */
  lemma DefAt(rows: Rows, x: Sense, i: nat)
    requires RowsFit(rows) && Key(Senses, x.id) in rows && x == SenseOf(rows, x.id)
    requires i < |x.definitions| || i < |Kids(rows, Defs, x.id)|
    ensures i < |x.definitions| && i < |Kids(rows, Defs, x.id)|
    ensures var id := Kids(rows, Defs, x.id)[i]; Key(Defs, id) in rows && x.definitions[i] == DefOf(rows, id) && x.definitions[i].id == id
  {
    hide RowsFit, Kids;
  }

  lemma DefOwned(db: DB, w: Id, t: Word, p: nat, i: nat, k: nat)
    requires Loaded(db, w, t) && p < |t.pos| && i < |t.pos[p].senses| && k < |t.pos[p].senses[i].definitions|
    ensures var id := t.pos[p].senses[i].definitions[k].id;
      Key(Defs, id) in Owned(db.rows, w) && t.pos[p].senses[i].definitions[k] == DefOf(db.rows, id)
  {
    hide *;
    LoadedParts(db, w, t);
    SenseOwned(db, w, t, p, i);
    var x := t.pos[p].senses[i];
    OwnedIn(db.rows, w, Key(Senses, x.id));
    DefAt(db.rows, x, k);
    OwnedSense(db.rows, w, x.id);
    KidRow(db, w, Defs, x.id, k);
  }

  /** Element i of the list is child i. */
  lemma SentAt(rows: Rows, x: Sense, i: nat)
    requires RowsFit(rows) && Key(Senses, x.id) in rows && x == SenseOf(rows, x.id)
    requires i < |x.sentences| || i < |Kids(rows, Sents, x.id)|
    ensures i < |x.sentences| && i < |Kids(rows, Sents, x.id)|
    ensures var id := Kids(rows, Sents, x.id)[i]; Key(Sents, id) in rows && x.sentences[i] == SentOf(rows, id) && x.sentences[i].id == id
  {
    hide RowsFit, Kids;
  }

  lemma SentOwned(db: DB, w: Id, t: Word, p: nat, i: nat, k: nat)
    requires Loaded(db, w, t) && p < |t.pos| && i < |t.pos[p].senses| && k < |t.pos[p].senses[i].sentences|
    ensures var id := t.pos[p].senses[i].sentences[k].id;
      Key(Sents, id) in Owned(db.rows, w) && t.pos[p].senses[i].sentences[k] == SentOf(db.rows, id)
  {
    hide *;
    LoadedParts(db, w, t);
    SenseOwned(db, w, t, p, i);
    var x := t.pos[p].senses[i];
    OwnedIn(db.rows, w, Key(Senses, x.id));
    SentAt(db.rows, x, k);
    OwnedSense(db.rows, w, x.id);
    KidRow(db, w, Sents, x.id, k);
  }

  /** Element i of the list is child i. */
  lemma RelAt(rows: Rows, x: Sense, i: nat)
    requires RowsFit(rows) && Key(Senses, x.id) in rows && x == SenseOf(rows, x.id)
    requires i < |x.relations| || i < |Kids(rows, Rels, x.id)|
    ensures i < |x.relations| && i < |Kids(rows, Rels, x.id)|
    ensures var id := Kids(rows, Rels, x.id)[i]; Key(Rels, id) in rows && x.relations[i] == RelOf(rows, id) && x.relations[i].id == id
  {
    hide RowsFit, Kids;
  }

  lemma RelOwned(db: DB, w: Id, t: Word, p: nat, i: nat, k: nat)
    requires Loaded(db, w, t) && p < |t.pos| && i < |t.pos[p].senses| && k < |t.pos[p].senses[i].relations|
    ensures var id := t.pos[p].senses[i].relations[k].id;
      Key(Rels, id) in Owned(db.rows, w) && t.pos[p].senses[i].relations[k] == RelOf(db.rows, id)
  {
    hide *;
    LoadedParts(db, w, t);
    SenseOwned(db, w, t, p, i);
    var x := t.pos[p].senses[i];
    OwnedIn(db.rows, w, Key(Senses, x.id));
    RelAt(db.rows, x, k);
    OwnedSense(db.rows, w, x.id);
    KidRow(db, w, Rels, x.id, k);
  }

  /** Every node of the loaded tree is a row of the entry ... */
  lemma NodeIsRow(db: DB, w: Id, t: Word, n: Node)
    requires Loaded(db, w, t) && n in Doc(Echo(t))
    ensures KeyOf(n) in Owned(db.rows, w)
  {
    hide Doc, Loaded, Owned, PosHas;
    var b := Echo(t);
    match n.table {
      case Groups =>
        var i := LocateGroup(b, n);
        GroupOwned(db, w, t, i);
      case Pos =>
        var p := LocatePos(b, n);
        TabOwned(db, w, t, p);
      case Forms =>
        FormNodeIsRow(db, w, t, n);
      case Prons =>
        FormNodeIsRow(db, w, t, n);
      case Structs =>
        StructNodeIsRow(db, w, t, n);
      case Variants =>
        StructNodeIsRow(db, w, t, n);
      case _ =>
        SenseNodeIsRow(db, w, t, n);
    }
  }

  lemma FormNodeIsRow(db: DB, w: Id, t: Word, n: Node)
    requires Loaded(db, w, t) && n in Doc(Echo(t)) && (n.table.Forms? || n.table.Prons?)
    ensures KeyOf(n) in Owned(db.rows, w)
  {
    hide Doc, Loaded, Owned;
    var p, i := InFormAt(Echo(t), n);
    var f := t.pos[p].forms[i];
    if k: nat :| k < |f.pronunciations| && n == PronN(f.id, k, f.pronunciations[k]) {
      PronOwned(db, w, t, p, i, k);
    } else {
      FormOwned(db, w, t, p, i);
    }
  }

  lemma StructNodeIsRow(db: DB, w: Id, t: Word, n: Node)
    requires Loaded(db, w, t) && n in Doc(Echo(t)) && (n.table.Structs? || n.table.Variants?)
    ensures KeyOf(n) in Owned(db.rows, w)
  {
    hide Doc, Loaded, Owned;
    var p, i := InStructAt(Echo(t), n);
    var g := t.pos[p].structures[i];
    if k: nat :| k < |g.variants| && n == VariantN(g.id, k, g.variants[k]) {
      VariantOwned(db, w, t, p, i, k);
    } else {
      StructOwned(db, w, t, p, i);
    }
  }

  lemma SenseNodeIsRow(db: DB, w: Id, t: Word, n: Node)
    requires Loaded(db, w, t) && n in Doc(Echo(t)) && (n.table.Senses? || n.table.Defs? || n.table.Sents? || n.table.Rels?)
    ensures KeyOf(n) in Owned(db.rows, w)
  {
    hide Doc, Loaded, Owned;
    var p, i := InSenseAt(Echo(t), n);
    var s := t.pos[p].senses[i];
    if k: nat :| k < |s.definitions| && n == DefN(s.id, k, s.definitions[k]) {
      DefOwned(db, w, t, p, i, k);
    } else if k: nat :| k < |s.sentences| && n == SentN(s.id, k, s.sentences[k]) {
      SentOwned(db, w, t, p, i, k);
    } else if k: nat :| k < |s.relations| && n == RelN(s.id, k, s.relations[k]) {
      RelOwned(db, w, t, p, i, k);
    } else {
      SenseOwned(db, w, t, p, i);
    }
  }

  // ... and every row of the entry is a node.

  lemma KidAt(rows: Rows, k: Key) returns (i: nat)
    requires AllListed(rows) && k in rows
    ensures var ks := Kids(rows, k.table, rows[k].parent); i < |ks| && ks[i] == k.id
  {
    assert Listed(rows, k.table, rows[k].parent);
    var ids :| IsKids(rows, k.table, rows[k].parent, ids);
    KidsAre(rows, k.table, rows[k].parent, ids);
    KidMember(rows, k.table, rows[k].parent, ids, k);
    i :| i < |ids| && ids[i] == k.id;
  }

  lemma TopRowIsNode(db: DB, w: Id, t: Word, k: Key)
    requires Loaded(db, w, t) && k in Owned(db.rows, w) && Top(k.table)
    ensures k in Incoming(Echo(t))
  {
    hide RowsFit, Doc, AllListed;
    var i := KidAt(db.rows, k);
    RootOfTop(db.rows, k);
    if k.table.Groups? {
      GroupIn(Echo(t), i);
      InKeySet(Doc(Echo(t)), GroupN(i, t.groups[i]));
    } else {
      PosIn(Echo(t), i);
      InKeySet(Doc(Echo(t)), PosN(i, t.pos[i]));
    }
  }

  lemma NodeOfKey(b: SaveInput, k: Key) returns (n: Node)
    requires k in Incoming(b)
    ensures n in Doc(b) && KeyOf(n) == k
  {
    hide Doc;
    n :| n in Doc(b) && KeyOf(n) == k;
  }

  lemma TabOfKey(t: Word, id: Id) returns (p: nat)
    requires Key(Pos, id) in Incoming(Echo(t))
    ensures p < |t.pos| && t.pos[p].id == id
  {
    hide Doc, PosHas;
    var n := NodeOfKey(Echo(t), Key(Pos, id));
    p := LocatePos(Echo(t), n);
  }

  lemma FormOfKey(t: Word, id: Id) returns (p: nat, i: nat)
    requires Key(Forms, id) in Incoming(Echo(t))
    ensures p < |t.pos| && i < |t.pos[p].forms| && t.pos[p].forms[i].id == id
  {
    hide Doc;
    var n := NodeOfKey(Echo(t), Key(Forms, id));
    p, i := InFormAt(Echo(t), n);
  }

  lemma StructOfKey(t: Word, id: Id) returns (p: nat, i: nat)
    requires Key(Structs, id) in Incoming(Echo(t))
    ensures p < |t.pos| && i < |t.pos[p].structures| && t.pos[p].structures[i].id == id
  {
    hide Doc;
    var n := NodeOfKey(Echo(t), Key(Structs, id));
    p, i := InStructAt(Echo(t), n);
  }

  lemma SenseOfKey(t: Word, id: Id) returns (p: nat, i: nat)
    requires Key(Senses, id) in Incoming(Echo(t))
    ensures p < |t.pos| && i < |t.pos[p].senses| && t.pos[p].senses[i].id == id
  {
    hide Doc;
    var n := NodeOfKey(Echo(t), Key(Senses, id));
    p, i := InSenseAt(Echo(t), n);
  }

  lemma FormRowIsNode(db: DB, w: Id, t: Word, k: Key)
    requires Loaded(db, w, t) && k in db.rows && k.table.Forms? && Key(Pos, db.rows[k].parent) in Incoming(Echo(t))
    ensures k in Incoming(Echo(t))
  {
    hide *;
    LoadedParts(db, w, t);
    var p := TabOfKey(t, db.rows[k].parent);
    TabOwned(db, w, t, p);
    OwnedIn(db.rows, w, Key(Pos, t.pos[p].id));
    var i := KidAt(db.rows, k);
    FormAt(db.rows, t.pos[p], i);
    FormKeyIn(t, p, i);
  }

  lemma FormKeyIn(t: Word, p: nat, i: nat)
    requires p < |t.pos| && i < |t.pos[p].forms|
    ensures Key(Forms, t.pos[p].forms[i].id) in Incoming(Echo(t))
  {
    hide Doc;
    var n := FormN(t.pos[p].id, i, t.pos[p].forms[i]);
    FormIn(Echo(t), p, i, n);
    InKeySet(Doc(Echo(t)), n);
  }

  lemma StructRowIsNode(db: DB, w: Id, t: Word, k: Key)
    requires Loaded(db, w, t) && k in db.rows && k.table.Structs? && Key(Pos, db.rows[k].parent) in Incoming(Echo(t))
    ensures k in Incoming(Echo(t))
  {
    hide *;
    LoadedParts(db, w, t);
    var p := TabOfKey(t, db.rows[k].parent);
    TabOwned(db, w, t, p);
    OwnedIn(db.rows, w, Key(Pos, t.pos[p].id));
    var i := KidAt(db.rows, k);
    StructAt(db.rows, t.pos[p], i);
    StructKeyIn(t, p, i);
  }

  lemma StructKeyIn(t: Word, p: nat, i: nat)
    requires p < |t.pos| && i < |t.pos[p].structures|
    ensures Key(Structs, t.pos[p].structures[i].id) in Incoming(Echo(t))
  {
    hide Doc;
    var n := StructN(t.pos[p].id, i, t.pos[p].structures[i]);
    StructIn(Echo(t), p, i, n);
    InKeySet(Doc(Echo(t)), n);
  }

  lemma SenseRowIsNode(db: DB, w: Id, t: Word, k: Key)
    requires Loaded(db, w, t) && k in db.rows && k.table.Senses? && Key(Pos, db.rows[k].parent) in Incoming(Echo(t))
    ensures k in Incoming(Echo(t))
  {
    hide *;
    LoadedParts(db, w, t);
    var p := TabOfKey(t, db.rows[k].parent);
    TabOwned(db, w, t, p);
    OwnedIn(db.rows, w, Key(Pos, t.pos[p].id));
    var i := KidAt(db.rows, k);
    SenseAt(db.rows, t.pos[p], i);
    SenseKeyIn(t, p, i);
  }

  lemma SenseKeyIn(t: Word, p: nat, i: nat)
    requires p < |t.pos| && i < |t.pos[p].senses|
    ensures Key(Senses, t.pos[p].senses[i].id) in Incoming(Echo(t))
  {
    hide Doc;
    var n := SenseN(t.pos[p].id, i, t.pos[p].senses[i]);
    SenseIn(Echo(t), p, i, n);
    InKeySet(Doc(Echo(t)), n);
  }

  lemma PronRowIsNode(db: DB, w: Id, t: Word, k: Key)
    requires Loaded(db, w, t) && k in db.rows && k.table.Prons? && Key(Forms, db.rows[k].parent) in Incoming(Echo(t))
    ensures k in Incoming(Echo(t))
  {
    hide *;
    LoadedParts(db, w, t);
    var p, i := FormOfKey(t, db.rows[k].parent);
    FormOwned(db, w, t, p, i);
    OwnedIn(db.rows, w, Key(Forms, t.pos[p].forms[i].id));
    var j := KidAt(db.rows, k);
    PronAt(db.rows, t.pos[p].forms[i], j);
    PronKeyIn(t, p, i, j);
  }

  lemma PronKeyIn(t: Word, p: nat, i: nat, k: nat)
    requires p < |t.pos| && i < |t.pos[p].forms| && k < |t.pos[p].forms[i].pronunciations|
    ensures Key(Prons, t.pos[p].forms[i].pronunciations[k].id) in Incoming(Echo(t))
  {
    hide Doc;
    var n := PronN(t.pos[p].forms[i].id, k, t.pos[p].forms[i].pronunciations[k]);
    FormIn(Echo(t), p, i, n);
    InKeySet(Doc(Echo(t)), n);
  }

  lemma VariantRowIsNode(db: DB, w: Id, t: Word, k: Key)
    requires Loaded(db, w, t) && k in db.rows && k.table.Variants? && Key(Structs, db.rows[k].parent) in Incoming(Echo(t))
    ensures k in Incoming(Echo(t))
  {
    hide *;
    LoadedParts(db, w, t);
    var p, i := StructOfKey(t, db.rows[k].parent);
    StructOwned(db, w, t, p, i);
    OwnedIn(db.rows, w, Key(Structs, t.pos[p].structures[i].id));
    var j := KidAt(db.rows, k);
    VariantAt(db.rows, t.pos[p].structures[i], j);
    VariantKeyIn(t, p, i, j);
  }

  lemma VariantKeyIn(t: Word, p: nat, i: nat, k: nat)
    requires p < |t.pos| && i < |t.pos[p].structures| && k < |t.pos[p].structures[i].variants|
    ensures Key(Variants, t.pos[p].structures[i].variants[k].id) in Incoming(Echo(t))
  {
    hide Doc;
    var n := VariantN(t.pos[p].structures[i].id, k, t.pos[p].structures[i].variants[k]);
    StructIn(Echo(t), p, i, n);
    InKeySet(Doc(Echo(t)), n);
  }

  lemma DefRowIsNode(db: DB, w: Id, t: Word, k: Key)
    requires Loaded(db, w, t) && k in db.rows && k.table.Defs? && Key(Senses, db.rows[k].parent) in Incoming(Echo(t))
    ensures k in Incoming(Echo(t))
  {
    hide *;
    LoadedParts(db, w, t);
    var p, i := SenseOfKey(t, db.rows[k].parent);
    SenseOwned(db, w, t, p, i);
    OwnedIn(db.rows, w, Key(Senses, t.pos[p].senses[i].id));
    var j := KidAt(db.rows, k);
    DefAt(db.rows, t.pos[p].senses[i], j);
    DefKeyIn(t, p, i, j);
  }

  lemma DefKeyIn(t: Word, p: nat, i: nat, k: nat)
    requires p < |t.pos| && i < |t.pos[p].senses| && k < |t.pos[p].senses[i].definitions|
    ensures Key(Defs, t.pos[p].senses[i].definitions[k].id) in Incoming(Echo(t))
  {
    hide Doc;
    var n := DefN(t.pos[p].senses[i].id, k, t.pos[p].senses[i].definitions[k]);
    SenseIn(Echo(t), p, i, n);
    InKeySet(Doc(Echo(t)), n);
  }

  lemma SentRowIsNode(db: DB, w: Id, t: Word, k: Key)
    requires Loaded(db, w, t) && k in db.rows && k.table.Sents? && Key(Senses, db.rows[k].parent) in Incoming(Echo(t))
    ensures k in Incoming(Echo(t))
  {
    hide *;
    LoadedParts(db, w, t);
    var p, i := SenseOfKey(t, db.rows[k].parent);
    SenseOwned(db, w, t, p, i);
    OwnedIn(db.rows, w, Key(Senses, t.pos[p].senses[i].id));
    var j := KidAt(db.rows, k);
    SentAt(db.rows, t.pos[p].senses[i], j);
    SentKeyIn(t, p, i, j);
  }

  lemma SentKeyIn(t: Word, p: nat, i: nat, k: nat)
    requires p < |t.pos| && i < |t.pos[p].senses| && k < |t.pos[p].senses[i].sentences|
    ensures Key(Sents, t.pos[p].senses[i].sentences[k].id) in Incoming(Echo(t))
  {
    hide Doc;
    var n := SentN(t.pos[p].senses[i].id, k, t.pos[p].senses[i].sentences[k]);
    SenseIn(Echo(t), p, i, n);
    InKeySet(Doc(Echo(t)), n);
  }

  lemma RelRowIsNode(db: DB, w: Id, t: Word, k: Key)
    requires Loaded(db, w, t) && k in db.rows && k.table.Rels? && Key(Senses, db.rows[k].parent) in Incoming(Echo(t))
    ensures k in Incoming(Echo(t))
  {
    hide *;
    LoadedParts(db, w, t);
    var p, i := SenseOfKey(t, db.rows[k].parent);
    SenseOwned(db, w, t, p, i);
    OwnedIn(db.rows, w, Key(Senses, t.pos[p].senses[i].id));
    var j := KidAt(db.rows, k);
    RelAt(db.rows, t.pos[p].senses[i], j);
    RelKeyIn(t, p, i, j);
  }

  lemma RelKeyIn(t: Word, p: nat, i: nat, k: nat)
    requires p < |t.pos| && i < |t.pos[p].senses| && k < |t.pos[p].senses[i].relations|
    ensures Key(Rels, t.pos[p].senses[i].relations[k].id) in Incoming(Echo(t))
  {
    hide Doc;
    var n := RelN(t.pos[p].senses[i].id, k, t.pos[p].senses[i].relations[k]);
    SenseIn(Echo(t), p, i, n);
    InKeySet(Doc(Echo(t)), n);
  }

  lemma LoadedParts(db: DB, w: Id, t: Word)
    requires Loaded(db, w, t)
    ensures RowsFit(db.rows) && AllListed(db.rows)
  {
    hide RowsFit, AllListed, TreeOf;
  }

  lemma OwnedParent(rows: Rows, w: Id, k: Key)
    requires k in Owned(rows, w) && !Top(k.table)
    ensures k in rows && ParentKey(k.table, rows[k].parent) in Owned(rows, w)
  {
    RootInRows(rows, k);
    RootOfChild(rows, k);
    RootInRows(rows, ParentKey(k.table, rows[k].parent));
    hide Root;
  }

  lemma {:induction false} RowIsNode(db: DB, w: Id, t: Word, k: Key)
    requires Loaded(db, w, t) && k in Owned(db.rows, w)
    ensures k in Incoming(Echo(t))
    decreases Depth(k.table)
  {
    hide Loaded, Owned, Incoming;
    if Top(k.table) {
      TopRowIsNode(db, w, t, k);
    } else {
      OwnedParent(db.rows, w, k);
      RowIsNode(db, w, t, ParentKey(k.table, db.rows[k].parent));
      match k.table {
        case Forms => FormRowIsNode(db, w, t, k);
        case Structs => StructRowIsNode(db, w, t, k);
        case Senses => SenseRowIsNode(db, w, t, k);
        case Prons => PronRowIsNode(db, w, t, k);
        case Variants => VariantRowIsNode(db, w, t, k);
        case Defs => DefRowIsNode(db, w, t, k);
        case Sents => SentRowIsNode(db, w, t, k);
        case Rels => RelRowIsNode(db, w, t, k);
      }
    }
  }

  /** A loaded tree carries exactly the rows of its entry. */
  lemma LoadedKeys(db: DB, w: Id, t: Word)
    requires Loaded(db, w, t)
    ensures Incoming(Echo(t)) == Owned(db.rows, w)
  {
    hide Loaded, Owned, Incoming;
    forall k | k in Incoming(Echo(t)) ensures k in Owned(db.rows, w) {
      var n := NodeOfKey(Echo(t), k);
      NodeIsRow(db, w, t, n);
    }
    forall k | k in Owned(db.rows, w) ensures k in Incoming(Echo(t)) {
      RowIsNode(db, w, t, k);
    }
  }

  // --- The save goes through ---

  lemma EchoKeys(db: DB, w: Id, t: Word, b: SaveInput)
    requires Loaded(db, w, t) && Clean(Echo(t), b)
    ensures Incoming(b) == Owned(db.rows, w) && Gone(db, w, b) == {}
  {
    hide Loaded, Owned, Doc, Clean;
    CleanSameDoc(Echo(t), b);
    LoadedKeys(db, w, t);
  }

  /** A relation node of the tree, with its place. */
  lemma RelationAt(b: SaveInput, n: Node) returns (p: nat, i: nat, k: nat)
    requires n in Doc(b) && n.data.RelData?
    ensures p < |b.pos| && i < |b.pos[p].senses| && k < |b.pos[p].senses[i].relations|
    ensures n == RelN(b.pos[p].senses[i].id, k, b.pos[p].senses[i].relations[k])
  {
    NodeFits(b, n);
    hide Doc;
    p, i := InSenseAt(b, n);
    var s := b.pos[p].senses[i];
    k :| k < |s.relations| && n == RelN(s.id, k, s.relations[k]);
  }

  lemma EchoTarget(db: DB, w: Id, t: Word, b: SaveInput, n: Node)
    requires WF(db) && Loaded(db, w, t) && Clean(Echo(t), b) && n in Doc(b) && n.data.RelData?
    ensures TargetOk(db, w, b, n)
  {
    WFParts(db);
    EchoKeys(db, w, t, b);
    CleanSameDoc(Echo(t), b);
    var p, i, k := RelationAt(Echo(t), n);
    LoadedLink(db, w, t, p, i, k);
    RelOwned(db, w, t, p, i, k);
    hide WF, Loaded, Clean, Incoming, Root, Gone, Owned;
    if n.data.target.sense.Some? {
      OwnedRoot(db.rows, w, Key(Senses, n.data.target.sense.value));
    }
  }

  lemma LoadedLink(db: DB, w: Id, t: Word, p: nat, i: nat, k: nat)
    requires LinksOk(db) && Loaded(db, w, t)
    requires p < |t.pos| && i < |t.pos[p].senses| && k < |t.pos[p].senses[i].relations|
    ensures LinkOk(db, t.pos[p].senses[i].relations[k].target)
  {
    hide LinksOk, RowsFit, AllListed, TreeOf, LinkOk;
    TreeLinkOk(db, w, p, i, k);
  }

  lemma EchoPlaced(db: DB, w: Id, t: Word, b: SaveInput, n: Node)
    requires Loaded(db, w, t) && Clean(Echo(t), b) && n in Doc(b)
    ensures Placed(db, w, b, n)
  {
    hide Loaded, Clean, Owned, Doc, Doomed;
    EchoKeys(db, w, t, b);
    InKeySet(Doc(b), n);
    NotDoomed(db.rows, KeyOf(n));
  }

  lemma EchoCanSave(db: DB, w: Id, t: Word, b: SaveInput)
    requires WF(db) && Loaded(db, w, t) && Clean(Echo(t), b)
    ensures CanSave(db, w, b)
  {
    hide WF, Loaded, Placed, TargetOk, Doc, Clean;
    LoadedToken(db, w, t);
    CleanBase(Echo(t), b);
    forall n | n in Doc(b) ensures Placed(db, w, b, n) {
      EchoPlaced(db, w, t, b, n);
    }
    forall n | n in Doc(b) && n.data.RelData? ensures TargetOk(db, w, b, n) {
      EchoTarget(db, w, t, b, n);
    }
  }

  lemma CleanBase(a: SaveInput, b: SaveInput)
    requires Clean(a, b)
    ensures a.base == b.base
  {
  }

  lemma LoadedToken(db: DB, w: Id, t: Word)
    requires Loaded(db, w, t)
    ensures w in db.words && t.updatedAt == db.words[w].token && t.id == w
  {
  }

  // --- Glosses do not move ---

  lemma DefStays(db: DB, w: Id, t: Word, b: SaveInput, rows: Rows, k: Key)
    requires Loaded(db, w, t) && Clean(Echo(t), b) && BodyStored(db, w, b, rows) && OthersKept(db, w, b, rows)
    requires k.table.Defs?
    ensures k in rows <==> k in db.rows
    ensures k in rows ==> rows[k].parent == db.rows[k].parent && rows[k].ord == db.rows[k].ord
    ensures k in rows ==> rows[k].data.DefData? == db.rows[k].data.DefData?
    ensures k in rows && rows[k].data.DefData? ==> rows[k].data.defType == db.rows[k].data.defType
    ensures k in rows && rows[k].data.DefData? ==> rows[k].data.text.text == db.rows[k].data.text.text
  {
    EchoKeys(db, w, t, b);
    hide Loaded, Clean, Doc, Owned;
    if k in Incoming(b) {
      OwnedIn(db.rows, w, k);
      OwnDefStays(db, w, t, b, rows, k);
    } else if k in rows {
      NothingLost(db.rows[k].data);
    }
  }

  lemma NothingLost(d: Data)
    ensures Unlinked(d, {}, {}) == d
  {
  }

  lemma OwnDefStays(db: DB, w: Id, t: Word, b: SaveInput, rows: Rows, k: Key)
    requires Loaded(db, w, t) && Clean(Echo(t), b) && BodyStored(db, w, b, rows)
    requires k.table.Defs? && k in Incoming(b) && k in db.rows
    ensures k in rows && rows[k].parent == db.rows[k].parent && rows[k].ord == db.rows[k].ord
    ensures db.rows[k].data.DefData? && rows[k].data.DefData?
    ensures rows[k].data.defType == db.rows[k].data.defType && rows[k].data.text.text == db.rows[k].data.text.text
  {
    hide Loaded, Clean, Doc, Owned, Incoming, KeptAudio;
    CleanSameDoc(Echo(t), b);
    var n := NodeOfKey(b, k);
    var p, i, j := DefAtNode(Echo(t), n);
    LoadedParts(db, w, t);
    DefOwned(db, w, t, p, i, j);
    DefPlace(db, w, t, p, i, j);
    assert Fits(Defs, db.rows[k].data);
    assert rows[k] == SavedRow(db, w, b, rows, n);
  }

  lemma DefAtNode(b: SaveInput, n: Node) returns (p: nat, i: nat, j: nat)
    requires n in Doc(b) && n.table.Defs?
    ensures p < |b.pos| && i < |b.pos[p].senses| && j < |b.pos[p].senses[i].definitions|
    ensures n == DefN(b.pos[p].senses[i].id, j, b.pos[p].senses[i].definitions[j])
  {
    hide Doc;
    p, i := InSenseAt(b, n);
    var s := b.pos[p].senses[i];
    j :| j < |s.definitions| && n == DefN(s.id, j, s.definitions[j]);
  }

  lemma DefPlace(db: DB, w: Id, t: Word, p: nat, i: nat, j: nat)
    requires Loaded(db, w, t) && p < |t.pos| && i < |t.pos[p].senses| && j < |t.pos[p].senses[i].definitions|
    ensures var s := t.pos[p].senses[i]; var k := Key(Defs, s.definitions[j].id);
      k in db.rows && db.rows[k].parent == s.id && db.rows[k].ord == j
  {
    hide *;
    LoadedParts(db, w, t);
    SenseOwned(db, w, t, p, i);
    OwnedIn(db.rows, w, Key(Senses, t.pos[p].senses[i].id));
    DefAt(db.rows, t.pos[p].senses[i], j);
    ListedAt(db.rows, Defs, t.pos[p].senses[i].id);
    KidOf(db.rows, Defs, t.pos[p].senses[i].id, j);
  }

  lemma ListedAt(rows: Rows, t: Table, p: Id)
    requires AllListed(rows)
    ensures Listed(rows, t, p)
  {
    hide Listed;
  }

  lemma GlossStays(db: DB, w: Id, t: Word, b: SaveInput, rows: Rows, sense: Id)
    requires Loaded(db, w, t) && Clean(Echo(t), b) && BodyStored(db, w, b, rows) && OthersKept(db, w, b, rows)
    ensures GlossAt(rows, sense) == GlossAt(db.rows, sense)
  {
    forall k: Key | k.table.Defs?
      ensures k in rows <==> k in db.rows
      ensures k in rows ==> SameDef(rows, db.rows, k)
    {
      hide *;
      DefStays(db, w, t, b, rows, k);
      SameDefIs(rows, db.rows, k);
    }
    hide *;
    SameDefsSameGloss(rows, db.rows, sense);
  }

  ghost predicate SameDef(r: Rows, q: Rows, k: Key)
    requires k in r && k in q
  {
    && r[k].parent == q[k].parent && r[k].ord == q[k].ord && r[k].data.DefData? == q[k].data.DefData?
    && (r[k].data.DefData? ==> r[k].data.defType == q[k].data.defType && r[k].data.text.text == q[k].data.text.text)
  }

  lemma SameDefIs(r: Rows, q: Rows, k: Key)
    requires k in r <==> k in q
    requires k in r ==> r[k].parent == q[k].parent && r[k].ord == q[k].ord && r[k].data.DefData? == q[k].data.DefData?
    requires k in r && r[k].data.DefData? ==> r[k].data.defType == q[k].data.defType && r[k].data.text.text == q[k].data.text.text
    ensures k in r ==> SameDef(r, q, k)
  {
  }

  lemma SameDefsSameGloss(r: Rows, q: Rows, sense: Id)
    requires forall k: Key | k.table.Defs? :: (k in r <==> k in q) && (k in r ==> SameDef(r, q, k))
    ensures GlossAt(r, sense) == GlossAt(q, sense)
  {
    if k :| IsFirst(r, sense, k) {
      FirstStays(r, q, sense, k);
      GlossIs(r, sense, k);
      GlossIs(q, sense, k);
    } else if k :| IsFirst(q, sense, k) {
      FirstStays(q, r, sense, k);
    }
  }

  lemma FirstStays(r: Rows, q: Rows, sense: Id, k: Key)
    requires forall k: Key | k.table.Defs? :: (k in r <==> k in q) && (k in r ==> SameDef(r, q, k))
    requires IsFirst(r, sense, k)
    ensures IsFirst(q, sense, k)
  {
    forall l | IsDefOf(q, sense, l) && l != k ensures IsDefOf(q, sense, k) && Precedes(q, k, l) {
      assert SameDef(r, q, l) && SameDef(r, q, k);
      assert IsDefOf(r, sense, l);
    }
    assert SameDef(r, q, k);
  }

  // --- The tree after the save ---

  /** A live sense's gloss is looked up again; everything else is as it was. */
  ghost function RefreshedRel(rows: Rows, r: Relation): Relation {
    if r.target.word.Some? && r.target.sense.Some? then
      r.(target := r.target.(gloss := GlossAt(rows, r.target.sense.value)))
    else r
  }

  ghost function RefreshedRels(rows: Rows, rs: seq<Relation>): (q: seq<Relation>)
    ensures |q| == |rs| && forall k | 0 <= k < |rs| :: q[k] == RefreshedRel(rows, rs[k])
  {
    seq(|rs|, k requires 0 <= k < |rs| => RefreshedRel(rows, rs[k]))
  }

  ghost function RefreshedSense(rows: Rows, s: Sense): Sense {
    s.(relations := RefreshedRels(rows, s.relations))
  }

  ghost function RefreshedSenses(rows: Rows, ss: seq<Sense>): (q: seq<Sense>)
    ensures |q| == |ss| && forall i | 0 <= i < |ss| :: q[i] == RefreshedSense(rows, ss[i])
  {
    seq(|ss|, i requires 0 <= i < |ss| => RefreshedSense(rows, ss[i]))
  }

  ghost function RefreshedTab(rows: Rows, p: POS): POS {
    p.(senses := RefreshedSenses(rows, p.senses))
  }

  ghost function RefreshedTabs(rows: Rows, ps: seq<POS>): (q: seq<POS>)
    ensures |q| == |ps| && forall p | 0 <= p < |ps| :: q[p] == RefreshedTab(rows, ps[p])
  {
    seq(|ps|, p requires 0 <= p < |ps| => RefreshedTab(rows, ps[p]))
  }

  ghost predicate Echoed(db: DB, w: Id, t: Word, o: Origin) {
    && WF(db) && Loaded(db, w, t) && Clean(Echo(t), o.body)
    && o.before == db && o.w == w && Gone(db, w, o.body) == {}
    && (forall s :: GlossAt(o.rows, s) == GlossAt(db.rows, s))
  }

  lemma EchoedParts(db: DB, w: Id, t: Word, o: Origin)
    requires Echoed(db, w, t, o)
    ensures WF(db) && LinksOk(db) && RowsFit(db.rows) && Loaded(db, w, t) && Clean(Echo(t), o.body)
    ensures o.before == db && o.w == w && Gone(db, w, o.body) == {}
  {
    hide WF, Loaded, Clean, LinksOk, RowsFit;
    WFParts(db);
  }

  lemma GlossEchoed(db: DB, w: Id, t: Word, o: Origin, s: Id)
    requires Echoed(db, w, t, o)
    ensures GlossAt(o.rows, s) == GlossAt(db.rows, s)
  {
    hide WF, Loaded, Clean, GlossAt;
  }

  lemma AudioKept(db: DB, w: Id, k: Key)
    requires k in Owned(db.rows, w)
    ensures k in db.rows && KeptAudio(db, w, k) == db.rows[k].audio
  {
  }

  lemma PronEchoed(db: DB, w: Id, t: Word, o: Origin, p: nat, i: nat, k: nat)
    requires Echoed(db, w, t, o) && p < |t.pos| && i < |t.pos[p].forms| && k < |t.pos[p].forms[i].pronunciations|
    ensures var x := t.pos[p].forms[i].pronunciations[k]; ServedPron(o, x) == x
  {
    EchoedParts(db, w, t, o);
    PronOwned(db, w, t, p, i, k);
    AudioKept(db, w, Key(Prons, t.pos[p].forms[i].pronunciations[k].id));
    hide Echoed, WF, Loaded, Owned, KeptAudio, Clean, LinksOk, RowsFit;
  }

  lemma VariantEchoed(db: DB, w: Id, t: Word, o: Origin, p: nat, i: nat, k: nat)
    requires Echoed(db, w, t, o) && p < |t.pos| && i < |t.pos[p].structures| && k < |t.pos[p].structures[i].variants|
    ensures var x := t.pos[p].structures[i].variants[k]; ServedVariant(o, x) == x
  {
    EchoedParts(db, w, t, o);
    VariantOwned(db, w, t, p, i, k);
    AudioKept(db, w, Key(Variants, t.pos[p].structures[i].variants[k].id));
    hide Echoed, WF, Loaded, Owned, KeptAudio, Clean, LinksOk, RowsFit;
  }

  lemma DefEchoed(db: DB, w: Id, t: Word, o: Origin, p: nat, i: nat, k: nat)
    requires Echoed(db, w, t, o) && p < |t.pos| && i < |t.pos[p].senses| && k < |t.pos[p].senses[i].definitions|
    ensures var x := t.pos[p].senses[i].definitions[k]; ServedDef(o, x) == x
  {
    EchoedParts(db, w, t, o);
    DefOwned(db, w, t, p, i, k);
    AudioKept(db, w, Key(Defs, t.pos[p].senses[i].definitions[k].id));
    hide Echoed, WF, Loaded, Owned, KeptAudio, Clean, LinksOk, RowsFit;
  }

  lemma SentEchoed(db: DB, w: Id, t: Word, o: Origin, p: nat, i: nat, k: nat)
    requires Echoed(db, w, t, o) && p < |t.pos| && i < |t.pos[p].senses| && k < |t.pos[p].senses[i].sentences|
    ensures var x := t.pos[p].senses[i].sentences[k]; ServedSent(o, x) == x
  {
    EchoedParts(db, w, t, o);
    SentOwned(db, w, t, p, i, k);
    AudioKept(db, w, Key(Sents, t.pos[p].senses[i].sentences[k].id));
    hide Echoed, WF, Loaded, Owned, KeptAudio, Clean, LinksOk, RowsFit;
  }

  lemma StoredRel(db: DB, id: Id, w: Id)
    requires RowsFit(db.rows) && Key(Rels, id) in Owned(db.rows, w)
    ensures Key(Rels, id) in db.rows && StoredTarget(db.rows, Key(Rels, id)) == RelOf(db.rows, id).target
  {
    assert Fits(Rels, db.rows[Key(Rels, id)].data);
  }

  lemma NoneGone(link: Link)
    ensures UnlinkedTarget(link, {}, {}) == link
  {
  }

  lemma RelEchoed(db: DB, w: Id, t: Word, o: Origin, p: nat, i: nat, k: nat)
    requires Echoed(db, w, t, o) && p < |t.pos| && i < |t.pos[p].senses| && k < |t.pos[p].senses[i].relations|
    ensures var x := t.pos[p].senses[i].relations[k]; ServedRel(o, NormalRelation(x)) == RefreshedRel(db.rows, x)
  {
    EchoedParts(db, w, t, o);
    var x := t.pos[p].senses[i].relations[k];
    RelOwned(db, w, t, p, i, k);
    StoredRel(db, x.id, w);
    LoadedLink(db, w, t, p, i, k);
    NoneGone(x.target);
    if x.target.sense.Some? {
      GlossEchoed(db, w, t, o, x.target.sense.value);
    }
    hide Echoed, WF, Loaded, Clean, LinksOk, RowsFit, RelOf, GlossAt, Gone, StoredTarget, UnlinkedTarget, Owned, Root;
  }

  lemma DefsEchoed(db: DB, w: Id, t: Word, o: Origin, p: nat, i: nat)
    requires Echoed(db, w, t, o) && p < |t.pos| && i < |t.pos[p].senses|
    ensures var xs := t.pos[p].senses[i].definitions; ServedDefs(o, xs) == xs
  {
    hide *;
    var xs := t.pos[p].senses[i].definitions;
    forall k: nat | k < |xs| ensures ServedDef(o, xs[k]) == xs[k] {
      DefEchoed(db, w, t, o, p, i, k);
    }
  }

  lemma SentsEchoed(db: DB, w: Id, t: Word, o: Origin, p: nat, i: nat)
    requires Echoed(db, w, t, o) && p < |t.pos| && i < |t.pos[p].senses|
    ensures var xs := t.pos[p].senses[i].sentences; ServedSents(o, xs) == xs
  {
    hide *;
    var xs := t.pos[p].senses[i].sentences;
    forall k: nat | k < |xs| ensures ServedSent(o, xs[k]) == xs[k] {
      SentEchoed(db, w, t, o, p, i, k);
    }
  }

  lemma PronsEchoed(db: DB, w: Id, t: Word, o: Origin, p: nat, i: nat)
    requires Echoed(db, w, t, o) && p < |t.pos| && i < |t.pos[p].forms|
    ensures var xs := t.pos[p].forms[i].pronunciations; ServedProns(o, xs) == xs
  {
    hide *;
    var xs := t.pos[p].forms[i].pronunciations;
    forall k: nat | k < |xs| ensures ServedPron(o, xs[k]) == xs[k] {
      PronEchoed(db, w, t, o, p, i, k);
    }
  }

  lemma VariantsEchoed(db: DB, w: Id, t: Word, o: Origin, p: nat, i: nat)
    requires Echoed(db, w, t, o) && p < |t.pos| && i < |t.pos[p].structures|
    ensures var xs := t.pos[p].structures[i].variants; ServedVariants(o, xs) == xs
  {
    hide *;
    var xs := t.pos[p].structures[i].variants;
    forall k: nat | k < |xs| ensures ServedVariant(o, xs[k]) == xs[k] {
      VariantEchoed(db, w, t, o, p, i, k);
    }
  }

  lemma RelsEchoed(db: DB, w: Id, t: Word, o: Origin, p: nat, i: nat, rs: seq<Relation>)
    requires Echoed(db, w, t, o) && p < |t.pos| && i < |t.pos[p].senses| && |rs| == |t.pos[p].senses[i].relations|
    requires forall k: nat | k < |rs| :: rs[k] == NormalRelation(t.pos[p].senses[i].relations[k])
    ensures ServedRels(o, rs) == RefreshedRels(db.rows, t.pos[p].senses[i].relations)
  {
    hide *;
    forall k: nat | k < |rs| ensures ServedRel(o, rs[k]) == RefreshedRel(db.rows, t.pos[p].senses[i].relations[k]) {
      RelEchoed(db, w, t, o, p, i, k);
    }
  }

  lemma SenseFrom(o: Origin, rows: Rows, a: Sense, s: Sense)
    requires CleanSense(a, s)
    requires ServedDefs(o, a.definitions) == a.definitions && ServedSents(o, a.sentences) == a.sentences
    requires ServedRels(o, s.relations) == RefreshedRels(rows, a.relations)
    ensures ServedSense(o, s) == RefreshedSense(rows, a)
  {
    hide ServedDefs, ServedSents, ServedRels, RefreshedRels, NormalRelation;
  }

  lemma SenseEchoed(db: DB, w: Id, t: Word, o: Origin, p: nat, i: nat, s: Sense)
    requires Echoed(db, w, t, o) && p < |t.pos| && i < |t.pos[p].senses| && CleanSense(t.pos[p].senses[i], s)
    ensures ServedSense(o, s) == RefreshedSense(db.rows, t.pos[p].senses[i])
  {
    CleanRels(t.pos[p].senses[i], s);
    hide *;
    DefsEchoed(db, w, t, o, p, i);
    SentsEchoed(db, w, t, o, p, i);
    RelsEchoed(db, w, t, o, p, i, s.relations);
    SenseFrom(o, db.rows, t.pos[p].senses[i], s);
  }

  lemma CleanRels(a: Sense, s: Sense)
    requires CleanSense(a, s)
    ensures |s.relations| == |a.relations|
    ensures forall k: nat | k < |s.relations| :: s.relations[k] == NormalRelation(a.relations[k])
  {
    hide NormalRelation;
  }

  lemma FormEchoed(db: DB, w: Id, t: Word, o: Origin, p: nat, i: nat)
    requires Echoed(db, w, t, o) && p < |t.pos| && i < |t.pos[p].forms|
    ensures ServedForm(o, t.pos[p].forms[i]) == t.pos[p].forms[i]
  {
    hide Echoed, ServedProns;
    PronsEchoed(db, w, t, o, p, i);
  }

  lemma StructEchoed(db: DB, w: Id, t: Word, o: Origin, p: nat, i: nat)
    requires Echoed(db, w, t, o) && p < |t.pos| && i < |t.pos[p].structures|
    ensures ServedStruct(o, t.pos[p].structures[i]) == t.pos[p].structures[i]
  {
    hide Echoed, ServedVariants;
    VariantsEchoed(db, w, t, o, p, i);
  }

  lemma FormsEchoed(db: DB, w: Id, t: Word, o: Origin, p: nat)
    requires Echoed(db, w, t, o) && p < |t.pos|
    ensures ServedForms(o, t.pos[p].forms) == t.pos[p].forms
  {
    hide *;
    forall i: nat | i < |t.pos[p].forms| ensures ServedForm(o, t.pos[p].forms[i]) == t.pos[p].forms[i] {
      FormEchoed(db, w, t, o, p, i);
    }
  }

  lemma StructsEchoed(db: DB, w: Id, t: Word, o: Origin, p: nat)
    requires Echoed(db, w, t, o) && p < |t.pos|
    ensures ServedStructs(o, t.pos[p].structures) == t.pos[p].structures
  {
    hide *;
    forall i: nat | i < |t.pos[p].structures| ensures ServedStruct(o, t.pos[p].structures[i]) == t.pos[p].structures[i] {
      StructEchoed(db, w, t, o, p, i);
    }
  }

  lemma SensesEchoed(db: DB, w: Id, t: Word, o: Origin, p: nat, ss: seq<Sense>)
    requires Echoed(db, w, t, o) && p < |t.pos| && |ss| == |t.pos[p].senses|
    requires forall i: nat | i < |ss| :: CleanSense(t.pos[p].senses[i], ss[i])
    ensures ServedSenses(o, ss) == RefreshedSenses(db.rows, t.pos[p].senses)
  {
    hide *;
    forall i: nat | i < |ss| ensures ServedSense(o, ss[i]) == RefreshedSense(db.rows, t.pos[p].senses[i]) {
      SenseEchoed(db, w, t, o, p, i, ss[i]);
    }
  }

  lemma TabFrom(o: Origin, rows: Rows, a: POS, q: POS)
    requires CleanTab(a, q)
    requires ServedForms(o, a.forms) == a.forms && ServedStructs(o, a.structures) == a.structures
    requires ServedSenses(o, q.senses) == RefreshedSenses(rows, a.senses)
    ensures ServedTab(o, q) == RefreshedTab(rows, a)
  {
    hide ServedForms, ServedStructs, ServedSenses, RefreshedSenses, CleanSense;
  }

  lemma CleanSenses(a: POS, q: POS)
    requires CleanTab(a, q)
    ensures |q.senses| == |a.senses| && forall i: nat | i < |q.senses| :: CleanSense(a.senses[i], q.senses[i])
  {
    hide CleanSense;
  }

  lemma TabEchoed(db: DB, w: Id, t: Word, o: Origin, p: nat, q: POS)
    requires Echoed(db, w, t, o) && p < |t.pos| && CleanTab(t.pos[p], q)
    ensures ServedTab(o, q) == RefreshedTab(db.rows, t.pos[p])
  {
    hide *;
    CleanSenses(t.pos[p], q);
    FormsEchoed(db, w, t, o, p);
    StructsEchoed(db, w, t, o, p);
    SensesEchoed(db, w, t, o, p, q.senses);
    TabFrom(o, db.rows, t.pos[p], q);
  }

  lemma TabsEchoed(db: DB, w: Id, t: Word, o: Origin)
    requires Echoed(db, w, t, o)
    ensures ServedTabs(o, o.body.pos) == RefreshedTabs(db.rows, t.pos)
  {
    hide *;
    EchoedParts(db, w, t, o);
    EchoLength(t, o.body);
    forall p: nat | p < |t.pos| ensures ServedTab(o, o.body.pos[p]) == RefreshedTab(db.rows, t.pos[p]) {
      EchoAt(t, o.body, p);
      TabEchoed(db, w, t, o, p, o.body.pos[p]);
    }
  }

  lemma EchoLength(t: Word, b: SaveInput)
    requires Clean(Echo(t), b)
    ensures |t.pos| == |b.pos|
  {
    hide CleanTab;
  }

  lemma EchoAt(t: Word, b: SaveInput, p: nat)
    requires Clean(Echo(t), b) && p < |t.pos|
    ensures p < |b.pos| && CleanTab(t.pos[p], b.pos[p])
  {
    hide CleanTab;
  }

  lemma CleanLength(a: SaveInput, b: SaveInput)
    requires Clean(a, b)
    ensures |a.pos| == |b.pos|
    ensures a.frequency == b.frequency && a.mode == b.mode && a.dialects == b.dialects && a.groups == b.groups
  {
  }

  /** The rows after an echo, as seen through the served tree. */
  lemma EchoOrigin(db: DB, w: Id, t: Word, b: SaveInput, rows: Rows)
    requires WF(db) && Loaded(db, w, t) && Clean(Echo(t), b)
    requires BodyStored(db, w, b, rows) && OthersKept(db, w, b, rows)
    ensures Echoed(db, w, t, Origin(db, w, b, rows))
  {
    hide WF, Loaded, Clean, BodyStored, OthersKept, GlossAt, Gone;
    EchoKeys(db, w, t, b);
    forall s ensures GlossAt(rows, s) == GlossAt(db.rows, s) {
      GlossStays(db, w, t, b, rows, s);
    }
  }

  lemma EchoServed(db: DB, w: Id, t: Word, b: SaveInput, now: Token, after: DB)
    requires WF(db) && Loaded(db, w, t) && Clean(Echo(t), b) && Valid(b)
    requires CanSave(db, w, b) && Replaces(db, w, b, now, after)
    ensures w in after.words && RowsFit(after.rows)
    ensures TreeOf(after, w) == t.(pos := RefreshedTabs(db.rows, t.pos), updatedAt := now)
  {
    WFParts(db);
    var o := Origin(db, w, b, after.rows);
    hide WF, Loaded, Clean, NodesOk, CanSave, BodyStored, OthersKept, Rooted, RowsFit, Echoed, TreeOf, ServedTabs,
      FrequencyOk, ModeOk, RefreshedTabs;
    EchoOrigin(db, w, t, b, after.rows);
    TabsEchoed(db, w, t, o);
    RoundTrip(db, w, b, now, after);
    CleanLength(Echo(t), b);
    LoadedRoot(db, w, t);
  }

  lemma LoadedRoot(db: DB, w: Id, t: Word)
    requires Loaded(db, w, t)
    ensures w in db.words && t.id == w
    ensures var r := db.words[w]; t.kind == r.kind && t.headword == r.headword && t.status == r.status && t.createdBy == r.createdBy
  {
  }

  lemma NothingUnlinked(t: Word)
    ensures UnlinkedTree(Lost({}, {}), t) == t
  {
    var x := Lost({}, {});
    forall p: nat | p < |t.pos| ensures UnlinkedTab(x, t.pos[p]) == t.pos[p] {
      forall i: nat | i < |t.pos[p].senses| ensures UnlinkedSense(x, t.pos[p].senses[i]) == t.pos[p].senses[i] {
        var rs := t.pos[p].senses[i].relations;
        forall k: nat | k < |rs| ensures UnlinkedRels(x, rs)[k] == rs[k] {
          NoneGone(rs[k].target);
        }
        assert UnlinkedRels(x, rs) == rs;
      }
      assert UnlinkedSenses(x, t.pos[p].senses) == t.pos[p].senses;
    }
    assert UnlinkedTabs(x, t.pos) == t.pos;
  }

  /**
   A loaded entry, sent back as it came with its own token, passes validation and is saved. Its
   tree changes in the token and in the glosses of live senses only; no other entry changes at all.
   */
  lemma EchoSaves(db: DB, w: Id, now: Token)
    requires WF(db) && w in db.words && now != ZERO_TIME && RowsFit(db.rows)
    ensures var t := TreeOf(db, w); var b := Normalized(Echo(t));
      Valid(b) && CanSave(db, w, b)
    ensures forall after :: var t := TreeOf(db, w); var b := Normalized(Echo(t));
      Replaces(db, w, b, now, after) ==>
        && RowsFit(after.rows) && w in after.words
        && TreeOf(after, w) == t.(pos := RefreshedTabs(db.rows, t.pos), updatedAt := now)
        && forall v | v in db.words && v != w :: v in after.words && TreeOf(after, v) == TreeOf(db, v)
  {
    var t := TreeOf(db, w);
    var b := Normalized(Echo(t));
    WFParts(db);
    assert Loaded(db, w, t);
    EntryValid(db, w);
    hide WF, Loaded, Valid, TreeOf, Normalized, CanSave, Replaces, Echo, Clean, RowsFit, RefreshedTabs, Gone;
    ValidNormalized(Echo(t));
    EchoCanSave(db, w, t, b);
    forall after | Replaces(db, w, b, now, after)
      ensures RowsFit(after.rows) && w in after.words
      ensures TreeOf(after, w) == t.(pos := RefreshedTabs(db.rows, t.pos), updatedAt := now)
      ensures forall v | v in db.words && v != w :: v in after.words && TreeOf(after, v) == TreeOf(db, v)
    {
      EchoServed(db, w, t, b, now, after);
      EchoKeys(db, w, t, b);
      forall v | v in db.words && v != w ensures v in after.words && TreeOf(after, v) == TreeOf(db, v) {
        OthersUntouched(db, w, b, now, after, v);
        NothingUnlinked(TreeOf(db, v));
      }
    }
  }
}
