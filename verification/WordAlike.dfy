/**
 Trees that differ only in what the server owns: audio, and the targets of relations.
 Such trees are equally valid.
 */
module WordAlike {
  import opened Basics
  import opened WordModel
  import opened WordTables
  import opened WordValidation

  predicate AlikeProns(a: seq<Pronunciation>, b: seq<Pronunciation>) {
    |a| == |b| && forall i: nat | i < |a| :: b[i] == a[i].(audio := b[i].audio)
  }

  predicate AlikeVariants(a: seq<GrammarVariant>, b: seq<GrammarVariant>) {
    |a| == |b| && forall i: nat | i < |a| :: b[i] == a[i].(audio := b[i].audio)
  }

  predicate AlikeDefs(a: seq<Definition>, b: seq<Definition>) {
    |a| == |b| && forall i: nat | i < |a| :: b[i] == a[i].(audio := b[i].audio)
  }

  predicate AlikeSents(a: seq<Sentence>, b: seq<Sentence>) {
    |a| == |b| && forall i: nat | i < |a| :: b[i] == a[i].(audio := b[i].audio)
  }

  /** The targets of b are proper: no sense without a word. */
  predicate AlikeRels(a: seq<Relation>, b: seq<Relation>) {
    |a| == |b| && forall i: nat | i < |a| ::
      b[i] == a[i].(target := b[i].target) && (b[i].target.sense.Some? ==> b[i].target.word.Some?)
  }

  predicate AlikeForm(a: Form, b: Form) {
    b == a.(pronunciations := b.pronunciations) && AlikeProns(a.pronunciations, b.pronunciations)
  }

  predicate AlikeStruct(a: GrammarStructure, b: GrammarStructure) {
    b == a.(variants := b.variants) && AlikeVariants(a.variants, b.variants)
  }

  predicate AlikeSense(a: Sense, b: Sense) {
    && b == a.(definitions := b.definitions, sentences := b.sentences, relations := b.relations)
    && AlikeDefs(a.definitions, b.definitions)
    && AlikeSents(a.sentences, b.sentences)
    && AlikeRels(a.relations, b.relations)
  }

  predicate AlikeForms(a: seq<Form>, b: seq<Form>) {
    |a| == |b| && forall i: nat | i < |a| :: AlikeForm(a[i], b[i])
  }

  predicate AlikeStructs(a: seq<GrammarStructure>, b: seq<GrammarStructure>) {
    |a| == |b| && forall i: nat | i < |a| :: AlikeStruct(a[i], b[i])
  }

  predicate AlikeSenses(a: seq<Sense>, b: seq<Sense>) {
    |a| == |b| && forall i: nat | i < |a| :: AlikeSense(a[i], b[i])
  }

  predicate AlikeTab(a: POS, b: POS) {
    && b == a.(forms := b.forms, structures := b.structures, senses := b.senses)
    && AlikeForms(a.forms, b.forms)
    && AlikeStructs(a.structures, b.structures)
    && AlikeSenses(a.senses, b.senses)
  }

  predicate AlikeTabs(a: seq<POS>, b: seq<POS>) {
    |a| == |b| && forall i: nat | i < |a| :: AlikeTab(a[i], b[i])
  }

  predicate Alike(a: SaveInput, b: SaveInput) {
    b == a.(base := b.base, pos := b.pos) && AlikeTabs(a.pos, b.pos)
  }

  // --- The same ids ---

  predicate SameIds(m: seq<Node>, n: seq<Node>) {
    |m| == |n| && forall i: nat | i < |m| :: m[i].id == n[i].id
  }

  lemma SameIdsConcat(m: seq<Node>, n: seq<Node>, m': seq<Node>, n': seq<Node>)
    requires SameIds(m, n) && SameIds(m', n')
    ensures SameIds(m + m', n + n')
  {
  }

  lemma {:induction false} SameIdsFlat<T>(ctx: Id, a: seq<T>, b: seq<T>, f: (Id, nat, T) -> seq<Node>)
    requires |a| == |b| && forall i: nat | i < |a| :: SameIds(f(ctx, i, a[i]), f(ctx, i, b[i]))
    ensures SameIds(Flat(ctx, a, f), Flat(ctx, b, f))
  {
    if a == [] {
    } else {
      var k := |a| - 1;
      var x, y := a[..k], b[..k];
      assert forall i: nat | i < k :: x[i] == a[i] && y[i] == b[i];
      SameIdsFlat(ctx, x, y, f);
      SameIdsConcat(Flat(ctx, x, f), Flat(ctx, y, f), f(ctx, k, a[k]), f(ctx, k, b[k]));
    }
  }

  lemma FormIds(pos: Id, i: nat, a: Form, b: Form)
    requires AlikeForm(a, b)
    ensures SameIds(FormNodes(pos, i, a), FormNodes(pos, i, b))
  {
    SameIdsFlat(a.id, a.pronunciations, b.pronunciations, PronNodes);
    SameIdsConcat([FormN(pos, i, a)], [FormN(pos, i, b)], Flat(a.id, a.pronunciations, PronNodes),
      Flat(a.id, b.pronunciations, PronNodes));
  }

  lemma StructIdsAlike(pos: Id, i: nat, a: GrammarStructure, b: GrammarStructure)
    requires AlikeStruct(a, b)
    ensures SameIds(StructNodes(pos, i, a), StructNodes(pos, i, b))
  {
    SameIdsFlat(a.id, a.variants, b.variants, VariantNodes);
    SameIdsConcat([StructN(pos, i, a)], [StructN(pos, i, b)], Flat(a.id, a.variants, VariantNodes),
      Flat(a.id, b.variants, VariantNodes));
  }

  lemma SenseIds(pos: Id, i: nat, a: Sense, b: Sense)
    requires AlikeSense(a, b)
    ensures SameIds(SenseDocNodes(pos, i, a), SenseDocNodes(pos, i, b))
  {
    hide SameIds, Flat;
    var m, n := [SenseN(pos, i, a)], [SenseN(pos, i, b)];
    DefIds(a.id, a.definitions, b.definitions);
    SentIds(a.id, a.sentences, b.sentences);
    RelIds(a.id, a.relations, b.relations);
    var md, nd := Flat(a.id, a.definitions, DefNodes), Flat(a.id, b.definitions, DefNodes);
    var mt, nt := Flat(a.id, a.sentences, SentNodes), Flat(a.id, b.sentences, SentNodes);
    OneId(SenseN(pos, i, a), SenseN(pos, i, b));
    SameIdsConcat(m, n, md, nd);
    SameIdsConcat(m + md, n + nd, mt, nt);
    SameIdsConcat(m + md + mt, n + nd + nt, Flat(a.id, a.relations, RelNodes), Flat(a.id, b.relations, RelNodes));
  }

  lemma OneId(m: Node, n: Node)
    requires m.id == n.id
    ensures SameIds([m], [n])
  {
  }

  lemma DefIds(ctx: Id, a: seq<Definition>, b: seq<Definition>)
    requires AlikeDefs(a, b)
    ensures SameIds(Flat(ctx, a, DefNodes), Flat(ctx, b, DefNodes))
  {
    SameIdsFlat(ctx, a, b, DefNodes);
  }

  lemma SentIds(ctx: Id, a: seq<Sentence>, b: seq<Sentence>)
    requires AlikeSents(a, b)
    ensures SameIds(Flat(ctx, a, SentNodes), Flat(ctx, b, SentNodes))
  {
    SameIdsFlat(ctx, a, b, SentNodes);
  }

  lemma RelIds(ctx: Id, a: seq<Relation>, b: seq<Relation>)
    requires AlikeRels(a, b)
    ensures SameIds(Flat(ctx, a, RelNodes), Flat(ctx, b, RelNodes))
  {
    SameIdsFlat(ctx, a, b, RelNodes);
  }

  lemma TabIds(i: nat, a: POS, b: POS)
    requires AlikeTab(a, b)
    ensures SameIds(PosDocNodes(NIL, i, a), PosDocNodes(NIL, i, b))
  {
    hide SameIds, Flat, AlikeForm, AlikeStruct, AlikeSense, FormNodes, StructNodes, SenseDocNodes;
    forall k: nat | k < |a.forms| ensures SameIds(FormNodes(a.id, k, a.forms[k]), FormNodes(a.id, k, b.forms[k])) {
      FormIds(a.id, k, a.forms[k], b.forms[k]);
    }
    forall k: nat | k < |a.structures|
      ensures SameIds(StructNodes(a.id, k, a.structures[k]), StructNodes(a.id, k, b.structures[k]))
    {
      StructIdsAlike(a.id, k, a.structures[k], b.structures[k]);
    }
    forall k: nat | k < |a.senses| ensures SameIds(SenseDocNodes(a.id, k, a.senses[k]), SenseDocNodes(a.id, k, b.senses[k])) {
      SenseIds(a.id, k, a.senses[k], b.senses[k]);
    }
    SameIdsFlat(a.id, a.forms, b.forms, FormNodes);
    SameIdsFlat(a.id, a.structures, b.structures, StructNodes);
    SameIdsFlat(a.id, a.senses, b.senses, SenseDocNodes);
    var m, n := [PosN(i, a)], [PosN(i, b)];
    var mf, nf := Flat(a.id, a.forms, FormNodes), Flat(a.id, b.forms, FormNodes);
    var ms, ns := Flat(a.id, a.structures, StructNodes), Flat(a.id, b.structures, StructNodes);
    OneId(PosN(i, a), PosN(i, b));
    SameIdsConcat(m, n, mf, nf);
    SameIdsConcat(m + mf, n + nf, ms, ns);
    SameIdsConcat(m + mf + ms, n + nf + ns, Flat(a.id, a.senses, SenseDocNodes), Flat(a.id, b.senses, SenseDocNodes));
  }

  lemma DocIds(a: SaveInput, b: SaveInput)
    requires Alike(a, b)
    ensures SameIds(Doc(a), Doc(b))
  {
    hide SameIds, Flat, AlikeTab, PosDocNodes, GroupNodes;
    forall i: nat | i < |a.pos| ensures SameIds(PosDocNodes(NIL, i, a.pos[i]), PosDocNodes(NIL, i, b.pos[i])) {
      TabIds(i, a.pos[i], b.pos[i]);
    }
    SameIdsFlat(NIL, a.pos, b.pos, PosDocNodes);
    SameIdsSelf(Flat(NIL, a.groups, GroupNodes));
    SameIdsConcat(Flat(NIL, a.groups, GroupNodes), Flat(NIL, b.groups, GroupNodes),
      Flat(NIL, a.pos, PosDocNodes), Flat(NIL, b.pos, PosDocNodes));
  }

  lemma SameIdsSelf(m: seq<Node>)
    ensures SameIds(m, m)
  {
  }

  lemma IdsOkAlike(a: SaveInput, b: SaveInput)
    requires Alike(a, b) && IdsOk(Doc(a))
    ensures IdsOk(Doc(b))
  {
    hide Doc, Alike;
    DocIds(a, b);
  }

  // --- Equally valid ---

  lemma FormAlikeOk(allowed: set<Dialect>, a: Form, b: Form)
    requires AlikeForm(a, b) && FormOk(allowed, a)
    ensures FormOk(allowed, b)
  {
    hide ShortOk;
    forall i: nat | i < |b.pronunciations| ensures PronOk(b.pronunciations[i]) {
      assert PronOk(a.pronunciations[i]);
    }
  }

  lemma StructAlikeOk(allowed: set<Dialect>, a: GrammarStructure, b: GrammarStructure)
    requires AlikeStruct(a, b) && StructOk(allowed, a)
    ensures StructOk(allowed, b)
  {
    hide StoredText;
    forall i: nat | i < |b.variants| ensures VariantOk(allowed, b.variants[i]) {
      assert VariantOk(allowed, a.variants[i]);
    }
  }

  lemma SenseAlikeOk(groups: set<Id>, structs: set<Id>, a: Sense, b: Sense)
    requires AlikeSense(a, b) && SenseOk(groups, structs, a)
    ensures SenseOk(groups, structs, b)
  {
    hide StoredText, FrequencyOk;
    forall i: nat | i < |b.definitions| ensures DefinitionOk(structs, b.definitions[i]) {
      assert DefinitionOk(structs, a.definitions[i]);
    }
    forall i: nat | i < |b.sentences| ensures SentenceOk(b.sentences[i]) {
      assert SentenceOk(a.sentences[i]);
    }
    forall i: nat | i < |b.relations| ensures RelationOk(b.relations[i]) {
      assert RelationOk(a.relations[i]);
    }
  }

  lemma {:induction false} SameKeys<T, K>(a: seq<T>, b: seq<T>, k: nat, key: T -> K)
    requires |a| == |b| && k <= |a| && forall i: nat | i < |a| :: key(a[i]) == key(b[i])
    ensures Keys(a, k, key) == Keys(b, k, key)
  {
    if k == 0 {
    } else {
      SameKeys(a, b, k - 1, key);
    }
  }

  lemma TabAlikeOk(allowed: set<Dialect>, groups: set<Id>, a: POS, b: POS)
    requires AlikeTab(a, b) && PosOk(allowed, groups, a)
    ensures PosOk(allowed, groups, b)
  {
    hide FormOk, SenseOk, StructOk;
    SameKeys(a.structures, b.structures, |a.structures|, StructId);
    forall i: nat | i < |b.forms| ensures FormOk(allowed, b.forms[i]) {
      FormAlikeOk(allowed, a.forms[i], b.forms[i]);
    }
    forall i: nat | i < |b.structures| ensures StructOk(allowed, b.structures[i]) {
      StructAlikeOk(allowed, a.structures[i], b.structures[i]);
    }
    forall i: nat | i < |b.senses| ensures SenseOk(groups, StructIds(b.structures), b.senses[i]) {
      SenseAlikeOk(groups, StructIds(b.structures), a.senses[i], b.senses[i]);
    }
  }

  lemma AlikeOk(a: SaveInput, b: SaveInput)
    requires Alike(a, b) && NodesOk(a)
    ensures NodesOk(b)
  {
    hide PosOk, Doc, AlikeTab, IdsOk;
    IdsOkAlike(a, b);
    forall i: nat | i < |b.pos| ensures PosOk(AllowedSet(b.mode, b.dialects), GroupIds(b.groups), b.pos[i]) {
      TabAlikeOk(AllowedSet(b.mode, b.dialects), GroupIds(b.groups), a.pos[i], b.pos[i]);
    }
    assert DistinctPos(b.pos, |b.pos|) by {
      forall i: nat | i < |b.pos| ensures b.pos[i].pos == a.pos[i].pos {
        TabValue(a.pos[i], b.pos[i]);
      }
    }
  }

  lemma TabValue(a: POS, b: POS)
    requires AlikeTab(a, b)
    ensures a.pos == b.pos
  {
  }
}
