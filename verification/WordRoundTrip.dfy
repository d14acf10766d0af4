/**
 Saving and loading: after a save, GetTree returns the body's tree, node for node and in
 order, with the audio of kept ids and the relation targets the save resolved.
 */
module WordRoundTrip {
  import opened Basics
  import opened WordModel
  import opened WordTables
  import opened WordValidation
  import opened WordPositions
  import opened WordStore
  import opened WordRead
  import opened WordSave
  import opened WordBody
  import opened WordReplace
  import opened WordKids

  // --- The body as it is served back ---

  /** The save a served tree comes from: the store before, the word, and the rows after. */
  datatype Origin = Origin(before: DB, w: Id, body: SaveInput, rows: Rows)

  ghost function ServedPron(o: Origin, p: Pronunciation): Pronunciation {
    p.(audio := KeptAudio(o.before, o.w, Key(Prons, p.id)))
  }

  ghost function ServedVariant(o: Origin, v: GrammarVariant): GrammarVariant {
    v.(audio := KeptAudio(o.before, o.w, Key(Variants, v.id)))
  }

  ghost function ServedDef(o: Origin, d: Definition): Definition {
    d.(audio := KeptAudio(o.before, o.w, Key(Defs, d.id)))
  }

  ghost function ServedSent(o: Origin, t: Sentence): Sentence {
    t.(audio := KeptAudio(o.before, o.w, Key(Sents, t.id)))
  }

  ghost function ServedRel(o: Origin, r: Relation): Relation {
    r.(target := SavedLink(o.before, o.w, o.body, o.rows, Key(Rels, r.id), Link(r.target.word, r.target.sense, "", "")))
  }

  ghost function ServedProns(o: Origin, xs: seq<Pronunciation>): (r: seq<Pronunciation>)
    ensures |r| == |xs| && forall i | 0 <= i < |xs| :: r[i] == ServedPron(o, xs[i])
  {
    seq(|xs|, i requires 0 <= i < |xs| => ServedPron(o, xs[i]))
  }

  ghost function ServedVariants(o: Origin, xs: seq<GrammarVariant>): (r: seq<GrammarVariant>)
    ensures |r| == |xs| && forall i | 0 <= i < |xs| :: r[i] == ServedVariant(o, xs[i])
  {
    seq(|xs|, i requires 0 <= i < |xs| => ServedVariant(o, xs[i]))
  }

  ghost function ServedDefs(o: Origin, xs: seq<Definition>): (r: seq<Definition>)
    ensures |r| == |xs| && forall i | 0 <= i < |xs| :: r[i] == ServedDef(o, xs[i])
  {
    seq(|xs|, i requires 0 <= i < |xs| => ServedDef(o, xs[i]))
  }

  ghost function ServedSents(o: Origin, xs: seq<Sentence>): (r: seq<Sentence>)
    ensures |r| == |xs| && forall i | 0 <= i < |xs| :: r[i] == ServedSent(o, xs[i])
  {
    seq(|xs|, i requires 0 <= i < |xs| => ServedSent(o, xs[i]))
  }

  ghost function ServedRels(o: Origin, xs: seq<Relation>): (r: seq<Relation>)
    ensures |r| == |xs| && forall i | 0 <= i < |xs| :: r[i] == ServedRel(o, xs[i])
  {
    seq(|xs|, i requires 0 <= i < |xs| => ServedRel(o, xs[i]))
  }

  ghost function ServedForm(o: Origin, f: Form): Form {
    f.(pronunciations := ServedProns(o, f.pronunciations))
  }

  ghost function ServedStruct(o: Origin, g: GrammarStructure): GrammarStructure {
    g.(variants := ServedVariants(o, g.variants))
  }

  ghost function ServedSense(o: Origin, s: Sense): Sense {
    s.(definitions := ServedDefs(o, s.definitions), sentences := ServedSents(o, s.sentences),
       relations := ServedRels(o, s.relations))
  }

  ghost function ServedForms(o: Origin, xs: seq<Form>): (r: seq<Form>)
    ensures |r| == |xs| && forall i | 0 <= i < |xs| :: r[i] == ServedForm(o, xs[i])
  {
    seq(|xs|, i requires 0 <= i < |xs| => ServedForm(o, xs[i]))
  }

  ghost function ServedStructs(o: Origin, xs: seq<GrammarStructure>): (r: seq<GrammarStructure>)
    ensures |r| == |xs| && forall i | 0 <= i < |xs| :: r[i] == ServedStruct(o, xs[i])
  {
    seq(|xs|, i requires 0 <= i < |xs| => ServedStruct(o, xs[i]))
  }

  ghost function ServedSenses(o: Origin, xs: seq<Sense>): (r: seq<Sense>)
    ensures |r| == |xs| && forall i | 0 <= i < |xs| :: r[i] == ServedSense(o, xs[i])
  {
    seq(|xs|, i requires 0 <= i < |xs| => ServedSense(o, xs[i]))
  }

  ghost function ServedTab(o: Origin, p: POS): POS {
    p.(forms := ServedForms(o, p.forms), structures := ServedStructs(o, p.structures), senses := ServedSenses(o, p.senses))
  }

  ghost function ServedTabs(o: Origin, xs: seq<POS>): (r: seq<POS>)
    ensures |r| == |xs| && forall i | 0 <= i < |xs| :: r[i] == ServedTab(o, xs[i])
  {
    seq(|xs|, i requires 0 <= i < |xs| => ServedTab(o, xs[i]))
  }

  /** The entry a save of b into w leaves, with its new token. */
  ghost function ServedTree(o: Origin, now: Token): Word
    requires o.w in o.before.words
  {
    var r, b := o.before.words[o.w], o.body;
    Word(o.w, r.kind, r.headword, b.frequency, b.mode, b.dialects, r.status, r.createdBy, now, b.groups, ServedTabs(o, b.pos))
  }

  // --- Level by level ---

  ghost predicate From(o: Origin) {
    Stored(o.before, o.w, o.body, o.rows) && RowsFit(o.rows)
  }

  lemma NodeRow(o: Origin, n: Node)
    requires From(o) && n in Doc(o.body)
    ensures KeyOf(n) in o.rows && o.rows[KeyOf(n)] == SavedRow(o.before, o.w, o.body, o.rows, n)
    ensures KeyOf(n) in Incoming(o.body)
  {
    hide NodesOk, Doc, SavedRow, OthersKept, Split, RowsFit, Rooted;
  }

  lemma FromIds(o: Origin)
    requires From(o)
    ensures IdsOk(Doc(o.body)) && NodesOk(o.body)
  {
    IdsOkOf(o.body);
    hide IdsOk, NodesOk, Doc, BodyStored, OthersKept, Split, RowsFit, Rooted;
  }

  lemma TheKids(o: Origin, t: Table, p: Id, ids: seq<Id>)
    requires From(o) && BodyParent(o.body, o.w, t, p) && Lists(o.body, o.w, t, p, ids)
    ensures Kids(o.rows, t, p) == ids
  {
    hide Stored, RowsFit, BodyParent, Lists, IsKids;
    BodyKids(o.before, o.w, o.body, o.rows, t, p, ids);
    KidsAre(o.rows, t, p, ids);
  }

  lemma PronServed(o: Origin, p: nat, f: nat, i: nat)
    requires From(o) && p < |o.body.pos| && f < |o.body.pos[p].forms| && i < |o.body.pos[p].forms[f].pronunciations|
    ensures var x := o.body.pos[p].forms[f].pronunciations[i];
      RowsFit(o.rows) && Key(Prons, x.id) in o.rows && PronOf(o.rows, x.id) == ServedPron(o, x)
  {
    FromIds(o);
    hide Stored, IdsOk, Doc, NodesOk, RowsFit, KeptAudio, SavedLink;
    var F := o.body.pos[p].forms[f];
    var n := PronN(F.id, i, F.pronunciations[i]);
    FormIn(o.body, p, f, n);
    NodeRow(o, n);
  }

  lemma PronsKids(o: Origin, p: nat, f: nat)
    requires From(o) && p < |o.body.pos| && f < |o.body.pos[p].forms|
    ensures var F := o.body.pos[p].forms[f]; Kids(o.rows, Prons, F.id) == Map(F.pronunciations, PronId)
  {
    FromIds(o);
    hide From, IdsOk, Doc, NodesOk, Lists, BodyParent, Map, Kids;
    var F := o.body.pos[p].forms[f];
    var xs := F.pronunciations;
    FormParent(o.body, o.w, p, f);
    PronList(o.body, o.w, p, f);
    TheKids(o, Prons, F.id, Map(xs, PronId));
  }

  lemma PronsServed(o: Origin, p: nat, f: nat)
    requires From(o) && p < |o.body.pos| && f < |o.body.pos[p].forms|
    ensures var F := o.body.pos[p].forms[f]; RowsFit(o.rows) && PronsOf(o.rows, F.id) == ServedProns(o, F.pronunciations)
  {
    assert RowsFit(o.rows);
    PronsKids(o, p, f);
    hide From, RowsFit, Kids, PronOf, ServedPron;
    var F := o.body.pos[p].forms[f];
    var xs := F.pronunciations;
    forall i: nat | i < |xs| ensures PronsOf(o.rows, F.id)[i] == ServedProns(o, xs)[i] {
      MapAt(xs, PronId, i);
      PronServed(o, p, f, i);
    }
  }

  lemma VariantServed(o: Origin, p: nat, f: nat, i: nat)
    requires From(o) && p < |o.body.pos| && f < |o.body.pos[p].structures| && i < |o.body.pos[p].structures[f].variants|
    ensures var x := o.body.pos[p].structures[f].variants[i];
      RowsFit(o.rows) && Key(Variants, x.id) in o.rows && VariantOf(o.rows, x.id) == ServedVariant(o, x)
  {
    FromIds(o);
    hide Stored, IdsOk, Doc, NodesOk, RowsFit, KeptAudio, SavedLink;
    var F := o.body.pos[p].structures[f];
    var n := VariantN(F.id, i, F.variants[i]);
    StructIn(o.body, p, f, n);
    NodeRow(o, n);
    VariantsOk(o.body, p, f, i);
  }

  lemma VariantsKids(o: Origin, p: nat, f: nat)
    requires From(o) && p < |o.body.pos| && f < |o.body.pos[p].structures|
    ensures var F := o.body.pos[p].structures[f]; Kids(o.rows, Variants, F.id) == Map(F.variants, VariantId)
  {
    FromIds(o);
    hide From, IdsOk, Doc, NodesOk, Lists, BodyParent, Map, Kids;
    var F := o.body.pos[p].structures[f];
    var xs := F.variants;
    StructParent(o.body, o.w, p, f);
    VariantList(o.body, o.w, p, f);
    TheKids(o, Variants, F.id, Map(xs, VariantId));
  }

  lemma VariantsServed(o: Origin, p: nat, f: nat)
    requires From(o) && p < |o.body.pos| && f < |o.body.pos[p].structures|
    ensures var F := o.body.pos[p].structures[f]; RowsFit(o.rows) && VariantsOf(o.rows, F.id) == ServedVariants(o, F.variants)
  {
    assert RowsFit(o.rows);
    VariantsKids(o, p, f);
    hide From, RowsFit, Kids, VariantOf, ServedVariant;
    var F := o.body.pos[p].structures[f];
    var xs := F.variants;
    forall i: nat | i < |xs| ensures VariantsOf(o.rows, F.id)[i] == ServedVariants(o, xs)[i] {
      MapAt(xs, VariantId, i);
      VariantServed(o, p, f, i);
    }
  }

  lemma DefServed(o: Origin, p: nat, f: nat, i: nat)
    requires From(o) && p < |o.body.pos| && f < |o.body.pos[p].senses| && i < |o.body.pos[p].senses[f].definitions|
    ensures var x := o.body.pos[p].senses[f].definitions[i];
      RowsFit(o.rows) && Key(Defs, x.id) in o.rows && DefOf(o.rows, x.id) == ServedDef(o, x)
  {
    FromIds(o);
    hide Stored, IdsOk, Doc, NodesOk, RowsFit, KeptAudio, SavedLink;
    var F := o.body.pos[p].senses[f];
    var n := DefN(F.id, i, F.definitions[i]);
    SenseIn(o.body, p, f, n);
    NodeRow(o, n);
    DefinitionsOk(o.body, p, f, i);
  }

  lemma DefsKids(o: Origin, p: nat, f: nat)
    requires From(o) && p < |o.body.pos| && f < |o.body.pos[p].senses|
    ensures var F := o.body.pos[p].senses[f]; Kids(o.rows, Defs, F.id) == Map(F.definitions, DefId)
  {
    FromIds(o);
    hide From, IdsOk, Doc, NodesOk, Lists, BodyParent, Map, Kids;
    var F := o.body.pos[p].senses[f];
    var xs := F.definitions;
    SenseParent(o.body, o.w, p, f);
    DefList(o.body, o.w, p, f);
    TheKids(o, Defs, F.id, Map(xs, DefId));
  }

  lemma DefsServed(o: Origin, p: nat, f: nat)
    requires From(o) && p < |o.body.pos| && f < |o.body.pos[p].senses|
    ensures var F := o.body.pos[p].senses[f]; RowsFit(o.rows) && DefsOf(o.rows, F.id) == ServedDefs(o, F.definitions)
  {
    assert RowsFit(o.rows);
    DefsKids(o, p, f);
    hide From, RowsFit, Kids, DefOf, ServedDef;
    var F := o.body.pos[p].senses[f];
    var xs := F.definitions;
    forall i: nat | i < |xs| ensures DefsOf(o.rows, F.id)[i] == ServedDefs(o, xs)[i] {
      MapAt(xs, DefId, i);
      DefServed(o, p, f, i);
    }
  }

  lemma SentServed(o: Origin, p: nat, f: nat, i: nat)
    requires From(o) && p < |o.body.pos| && f < |o.body.pos[p].senses| && i < |o.body.pos[p].senses[f].sentences|
    ensures var x := o.body.pos[p].senses[f].sentences[i];
      RowsFit(o.rows) && Key(Sents, x.id) in o.rows && SentOf(o.rows, x.id) == ServedSent(o, x)
  {
    FromIds(o);
    hide Stored, IdsOk, Doc, NodesOk, RowsFit, KeptAudio, SavedLink;
    var F := o.body.pos[p].senses[f];
    var n := SentN(F.id, i, F.sentences[i]);
    SenseIn(o.body, p, f, n);
    NodeRow(o, n);
    SentencesOk(o.body, p, f, i);
  }

  lemma SentsKids(o: Origin, p: nat, f: nat)
    requires From(o) && p < |o.body.pos| && f < |o.body.pos[p].senses|
    ensures var F := o.body.pos[p].senses[f]; Kids(o.rows, Sents, F.id) == Map(F.sentences, SentId)
  {
    FromIds(o);
    hide From, IdsOk, Doc, NodesOk, Lists, BodyParent, Map, Kids;
    var F := o.body.pos[p].senses[f];
    var xs := F.sentences;
    SenseParent(o.body, o.w, p, f);
    SentList(o.body, o.w, p, f);
    TheKids(o, Sents, F.id, Map(xs, SentId));
  }

  lemma SentsServed(o: Origin, p: nat, f: nat)
    requires From(o) && p < |o.body.pos| && f < |o.body.pos[p].senses|
    ensures var F := o.body.pos[p].senses[f]; RowsFit(o.rows) && SentsOf(o.rows, F.id) == ServedSents(o, F.sentences)
  {
    assert RowsFit(o.rows);
    SentsKids(o, p, f);
    hide From, RowsFit, Kids, SentOf, ServedSent;
    var F := o.body.pos[p].senses[f];
    var xs := F.sentences;
    forall i: nat | i < |xs| ensures SentsOf(o.rows, F.id)[i] == ServedSents(o, xs)[i] {
      MapAt(xs, SentId, i);
      SentServed(o, p, f, i);
    }
  }

  lemma RelServed(o: Origin, p: nat, f: nat, i: nat)
    requires From(o) && p < |o.body.pos| && f < |o.body.pos[p].senses| && i < |o.body.pos[p].senses[f].relations|
    ensures var x := o.body.pos[p].senses[f].relations[i];
      RowsFit(o.rows) && Key(Rels, x.id) in o.rows && RelOf(o.rows, x.id) == ServedRel(o, x)
  {
    FromIds(o);
    hide Stored, IdsOk, Doc, NodesOk, RowsFit, KeptAudio, SavedLink;
    var F := o.body.pos[p].senses[f];
    var n := RelN(F.id, i, F.relations[i]);
    SenseIn(o.body, p, f, n);
    NodeRow(o, n);
  }

  lemma RelsKids(o: Origin, p: nat, f: nat)
    requires From(o) && p < |o.body.pos| && f < |o.body.pos[p].senses|
    ensures var F := o.body.pos[p].senses[f]; Kids(o.rows, Rels, F.id) == Map(F.relations, RelId)
  {
    FromIds(o);
    hide From, IdsOk, Doc, NodesOk, Lists, BodyParent, Map, Kids;
    var F := o.body.pos[p].senses[f];
    var xs := F.relations;
    SenseParent(o.body, o.w, p, f);
    RelList(o.body, o.w, p, f);
    TheKids(o, Rels, F.id, Map(xs, RelId));
  }

  lemma RelsServed(o: Origin, p: nat, f: nat)
    requires From(o) && p < |o.body.pos| && f < |o.body.pos[p].senses|
    ensures var F := o.body.pos[p].senses[f]; RowsFit(o.rows) && RelsOf(o.rows, F.id) == ServedRels(o, F.relations)
  {
    assert RowsFit(o.rows);
    RelsKids(o, p, f);
    hide From, RowsFit, Kids, RelOf, ServedRel;
    var F := o.body.pos[p].senses[f];
    var xs := F.relations;
    forall i: nat | i < |xs| ensures RelsOf(o.rows, F.id)[i] == ServedRels(o, xs)[i] {
      MapAt(xs, RelId, i);
      RelServed(o, p, f, i);
    }
  }

  lemma FormServed(o: Origin, p: nat, f: nat)
    requires From(o) && p < |o.body.pos| && f < |o.body.pos[p].forms|
    ensures var x := o.body.pos[p].forms[f];
      RowsFit(o.rows) && Key(Forms, x.id) in o.rows && FormOf(o.rows, x.id) == ServedForm(o, x)
  {
    FromIds(o);
    PronsServed(o, p, f);
    hide Stored, IdsOk, Doc, NodesOk, RowsFit, KeptAudio, SavedLink;
    var n := FormN(o.body.pos[p].id, f, o.body.pos[p].forms[f]);
    FormIn(o.body, p, f, n);
    NodeRow(o, n);
  }

  lemma FormsKids(o: Origin, p: nat)
    requires From(o) && p < |o.body.pos|
    ensures var P := o.body.pos[p]; Kids(o.rows, Forms, P.id) == Map(P.forms, FormId)
  {
    FromIds(o);
    hide From, IdsOk, Doc, NodesOk, Lists, BodyParent, Map, Kids;
    var P := o.body.pos[p];
    var xs := P.forms;
    TabParent(o.body, o.w, p);
    FormList(o.body, o.w, p);
    TheKids(o, Forms, P.id, Map(xs, FormId));
  }

  lemma FormsServed(o: Origin, p: nat)
    requires From(o) && p < |o.body.pos|
    ensures var P := o.body.pos[p]; RowsFit(o.rows) && FormsOf(o.rows, P.id) == ServedForms(o, P.forms)
  {
    assert RowsFit(o.rows);
    FormsKids(o, p);
    hide From, RowsFit, Kids, FormOf, ServedForm;
    var P := o.body.pos[p];
    var xs := P.forms;
    forall i: nat | i < |xs| ensures FormsOf(o.rows, P.id)[i] == ServedForms(o, xs)[i] {
      MapAt(xs, FormId, i);
      FormServed(o, p, i);
    }
  }

  lemma StructServed(o: Origin, p: nat, f: nat)
    requires From(o) && p < |o.body.pos| && f < |o.body.pos[p].structures|
    ensures var x := o.body.pos[p].structures[f];
      RowsFit(o.rows) && Key(Structs, x.id) in o.rows && StructOf(o.rows, x.id) == ServedStruct(o, x)
  {
    FromIds(o);
    VariantsServed(o, p, f);
    hide Stored, IdsOk, Doc, NodesOk, RowsFit, KeptAudio, SavedLink;
    var n := StructN(o.body.pos[p].id, f, o.body.pos[p].structures[f]);
    StructIn(o.body, p, f, n);
    NodeRow(o, n);
  }

  lemma StructsKids(o: Origin, p: nat)
    requires From(o) && p < |o.body.pos|
    ensures var P := o.body.pos[p]; Kids(o.rows, Structs, P.id) == Map(P.structures, StructId)
  {
    FromIds(o);
    hide From, IdsOk, Doc, NodesOk, Lists, BodyParent, Map, Kids;
    var P := o.body.pos[p];
    var xs := P.structures;
    TabParent(o.body, o.w, p);
    StructList(o.body, o.w, p);
    TheKids(o, Structs, P.id, Map(xs, StructId));
  }

  lemma StructsServed(o: Origin, p: nat)
    requires From(o) && p < |o.body.pos|
    ensures var P := o.body.pos[p]; RowsFit(o.rows) && StructsOf(o.rows, P.id) == ServedStructs(o, P.structures)
  {
    assert RowsFit(o.rows);
    StructsKids(o, p);
    hide From, RowsFit, Kids, StructOf, ServedStruct;
    var P := o.body.pos[p];
    var xs := P.structures;
    forall i: nat | i < |xs| ensures StructsOf(o.rows, P.id)[i] == ServedStructs(o, xs)[i] {
      MapAt(xs, StructId, i);
      StructServed(o, p, i);
    }
  }

  lemma SenseServed(o: Origin, p: nat, f: nat)
    requires From(o) && p < |o.body.pos| && f < |o.body.pos[p].senses|
    ensures var x := o.body.pos[p].senses[f];
      RowsFit(o.rows) && Key(Senses, x.id) in o.rows && SenseOf(o.rows, x.id) == ServedSense(o, x)
  {
    FromIds(o);
    DefsServed(o, p, f);
    SentsServed(o, p, f);
    RelsServed(o, p, f);
    hide Stored, IdsOk, Doc, NodesOk, RowsFit, KeptAudio, SavedLink;
    var n := SenseN(o.body.pos[p].id, f, o.body.pos[p].senses[f]);
    SenseIn(o.body, p, f, n);
    NodeRow(o, n);
  }

  lemma SensesKids(o: Origin, p: nat)
    requires From(o) && p < |o.body.pos|
    ensures var P := o.body.pos[p]; Kids(o.rows, Senses, P.id) == Map(P.senses, SenseId)
  {
    FromIds(o);
    hide From, IdsOk, Doc, NodesOk, Lists, BodyParent, Map, Kids;
    var P := o.body.pos[p];
    var xs := P.senses;
    TabParent(o.body, o.w, p);
    SenseList(o.body, o.w, p);
    TheKids(o, Senses, P.id, Map(xs, SenseId));
  }

  lemma SensesServed(o: Origin, p: nat)
    requires From(o) && p < |o.body.pos|
    ensures var P := o.body.pos[p]; RowsFit(o.rows) && SensesOf(o.rows, P.id) == ServedSenses(o, P.senses)
  {
    assert RowsFit(o.rows);
    SensesKids(o, p);
    hide From, RowsFit, Kids, SenseOf, ServedSense;
    var P := o.body.pos[p];
    var xs := P.senses;
    forall i: nat | i < |xs| ensures SensesOf(o.rows, P.id)[i] == ServedSenses(o, xs)[i] {
      MapAt(xs, SenseId, i);
      SenseServed(o, p, i);
    }
  }

  lemma TabServed(o: Origin, p: nat)
    requires From(o) && p < |o.body.pos|
    ensures var x := o.body.pos[p]; RowsFit(o.rows) && Key(Pos, x.id) in o.rows && PosOf(o.rows, x.id) == ServedTab(o, x)
  {
    FromIds(o);
    FormsServed(o, p);
    StructsServed(o, p);
    SensesServed(o, p);
    hide Stored, IdsOk, Doc, NodesOk, RowsFit, KeptAudio, SavedLink;
    PosIn(o.body, p);
    NodeRow(o, PosN(p, o.body.pos[p]));
  }

  lemma TabsServed(o: Origin)
    requires From(o)
    ensures RowsFit(o.rows) && TabsOf(o.rows, o.w) == ServedTabs(o, o.body.pos)
  {
    FromIds(o);
    assert RowsFit(o.rows);
    hide From, Stored, IdsOk, Doc, NodesOk, Lists, IsKids, RowsFit, PosOf, ServedTab;
    var xs := o.body.pos;
    TabList(o.body, o.w);
    TheKids(o, Pos, o.w, Map(xs, PosId));
    forall i: nat | i < |xs| ensures TabsOf(o.rows, o.w)[i] == ServedTabs(o, xs)[i] {
      MapAt(xs, PosId, i);
      TabServed(o, i);
    }
  }

  lemma GroupsServed(o: Origin)
    requires From(o)
    ensures RowsFit(o.rows) && GroupsOf(o.rows, o.w) == o.body.groups
  {
    FromIds(o);
    assert RowsFit(o.rows);
    hide From, Stored, IdsOk, Doc, NodesOk, Lists, IsKids, RowsFit;
    var xs := o.body.groups;
    GroupList(o.body, o.w);
    TheKids(o, Groups, o.w, Map(xs, GroupId));
    forall i: nat | i < |xs| ensures GroupsOf(o.rows, o.w)[i] == xs[i] {
      MapAt(xs, GroupId, i);
      GroupIn(o.body, i);
      NodeRow(o, GroupN(i, xs[i]));
    }
  }
}
