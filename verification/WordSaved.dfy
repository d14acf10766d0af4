/**
 What a saved entry loads as, said of the body place by place: content as sent, audio by id, and the
 three kinds of relation target.
 */
module WordSaved {
  import opened Basics
  import opened WordModel
  import opened WordTables
  import opened WordValidation
  import opened WordStore
  import opened WordRead
  import opened WordGloss
  import opened WordSave
  import opened WordReplace
  import opened WordRoundTrip
  import opened WordInvariant
  import opened WordFrame
  import opened WordSaveInvariant
  import opened WordLinks

  /** A save of b into w, from db to after. */
  datatype Step = Step(db: DB, w: Id, b: SaveInput, after: DB)

  /** The row was the entry's before the save. */
  predicate Kept(s: Step, t: Table, id: Id) {
    Key(t, id) in s.db.rows && Root(s.db.rows, Key(t, id)) == Some(s.w)
  }

  /** A kept node keeps its audio, a new one has none. */
  predicate AudioStays(s: Step, t: Table, id: Id, a: Audio) {
    if Kept(s, t, id) then a == s.db.rows[Key(t, id)].audio else a.url == "" && a.source == ""
  }

  /** The sense's first Chinese definition, or else its first. */
  ghost predicate IsGloss(ds: seq<Definition>, g: string) {
    if exists i: nat :: FirstZH(ds, i) then exists i: nat :: FirstZH(ds, i) && g == ds[i].text.text
    else g == if ds == [] then "" else ds[0].text.text
  }

  predicate FirstZH(ds: seq<Definition>, i: nat) {
    i < |ds| && ds[i].defType == ZH && forall j | 0 <= j < i :: ds[j].defType != ZH
  }

  /** The relation row as it was. */
  predicate WasRelation(s: Step, id: Id) {
    Kept(s, Rels, id) && s.db.rows[Key(Rels, id)].data.RelData?
  }

  /**
   The target of a relation: without a word in the body it is frozen as it was; a word without a sense keeps
   the gloss there was; a word with a sense gets that sense's gloss. The headword is always the current one.
   */
  ghost predicate TargetSaved(s: Step, id: Id, sent: Link, m: Link)
    requires RowsFit(s.after.rows)
  {
    match sent.word
    case None => WasRelation(s, id) && LinkStands(s.after, s.db.rows[Key(Rels, id)].data.target, m)
    case Some(tw) =>
      && m.word == Some(tw) && m.sense == sent.sense
      && tw in s.db.words && m.headword == s.db.words[tw].headword
      && match sent.sense
        case None => m.gloss == if WasRelation(s, id) then s.db.rows[Key(Rels, id)].data.target.gloss else ""
        case Some(ts) => Root(s.after.rows, Key(Senses, ts)) == Some(tw) && IsGloss(DefsOf(s.after.rows, ts), m.gloss)
  }

  ghost predicate RelSaved(s: Step, p: Relation, q: Relation)
    requires RowsFit(s.after.rows)
  {
    q.id == p.id && q.relation == p.relation && q.score == p.score && TargetSaved(s, p.id, p.target, q.target)
  }

  predicate PronSaved(s: Step, p: Pronunciation, q: Pronunciation) {
    && q.id == p.id && q.dictPhonetic == p.dictPhonetic && q.actualPron == p.actualPron && q.style == p.style
    && AudioStays(s, Prons, p.id, q.audio)
  }

  predicate FormSaved(s: Step, p: Form, q: Form) {
    && q.id == p.id && q.dialect == p.dialect && q.formType == p.formType && q.spelling == p.spelling
    && |q.pronunciations| == |p.pronunciations|
    && forall i | 0 <= i < |p.pronunciations| :: PronSaved(s, p.pronunciations[i], q.pronunciations[i])
  }

  predicate VariantSaved(s: Step, p: GrammarVariant, q: GrammarVariant) {
    q.id == p.id && q.dialect == p.dialect && q.content == p.content && AudioStays(s, Variants, p.id, q.audio)
  }

  predicate StructSaved(s: Step, p: GrammarStructure, q: GrammarStructure) {
    && q.id == p.id && |q.variants| == |p.variants|
    && forall i | 0 <= i < |p.variants| :: VariantSaved(s, p.variants[i], q.variants[i])
  }

  predicate DefinitionSaved(s: Step, p: Definition, q: Definition) {
    && q.id == p.id && q.level == p.level && q.defType == p.defType && q.text == p.text && q.structure == p.structure
    && AudioStays(s, Defs, p.id, q.audio)
  }

  predicate SentenceSaved(s: Step, p: Sentence, q: Sentence) {
    && q.id == p.id && q.sourceExample == p.sourceExample && q.text == p.text
    && AudioStays(s, Sents, p.id, q.audio)
  }

  ghost predicate SenseSaved(s: Step, p: Sense, q: Sense)
    requires RowsFit(s.after.rows)
  {
    && q.id == p.id && q.subPos == p.subPos && q.level == p.level && q.group == p.group && q.frequency == p.frequency
    && q.dependsOnContext == p.dependsOnContext
    && |q.definitions| == |p.definitions| && |q.sentences| == |p.sentences| && |q.relations| == |p.relations|
    && (forall i | 0 <= i < |p.definitions| :: DefinitionSaved(s, p.definitions[i], q.definitions[i]))
    && (forall i | 0 <= i < |p.sentences| :: SentenceSaved(s, p.sentences[i], q.sentences[i]))
    && (forall i | 0 <= i < |p.relations| :: RelSaved(s, p.relations[i], q.relations[i]))
  }

  ghost predicate TabSaved(s: Step, p: POS, q: POS)
    requires RowsFit(s.after.rows)
  {
    && q.id == p.id && q.pos == p.pos
    && |q.forms| == |p.forms| && |q.structures| == |p.structures| && |q.senses| == |p.senses|
    && (forall i | 0 <= i < |p.forms| :: FormSaved(s, p.forms[i], q.forms[i]))
    && (forall i | 0 <= i < |p.structures| :: StructSaved(s, p.structures[i], q.structures[i]))
    && (forall i | 0 <= i < |p.senses| :: SenseSaved(s, p.senses[i], q.senses[i]))
  }

  /** Tree t is what saving the body leaves, under the new token. */
  ghost predicate TreeSaved(s: Step, now: Token, t: Word)
    requires RowsFit(s.after.rows) && s.w in s.db.words
  {
    var r, b := s.db.words[s.w], s.b;
    && t.id == s.w && t.kind == r.kind && t.headword == r.headword && t.status == r.status && t.createdBy == r.createdBy
    && t.updatedAt == now && t.frequency == b.frequency && t.mode == b.mode && t.dialects == b.dialects
    && t.groups == b.groups
    && |t.pos| == |b.pos| && forall i | 0 <= i < |b.pos| :: TabSaved(s, b.pos[i], t.pos[i])
  }

  // --- Every save does that ---

  lemma AudioIs(s: Step, t: Table, id: Id)
    ensures AudioStays(s, t, id, KeptAudio(s.db, s.w, Key(t, id)))
  {
    hide Root;
  }

  lemma GlossIsGloss(rows: Rows, sense: Id)
    requires RowsFit(rows) && AllListed(rows)
    ensures IsGloss(DefsOf(rows, sense), GlossAt(rows, sense))
  {
    GlossMeaning(rows, sense);
    hide GlossAt, AllListed, RowsFit, DefsOf;
    var ds := DefsOf(rows, sense);
    var i := FirstChineseAt(ds);
    hide FirstChinese;
    if FirstChinese(ds).Some? {
      assert FirstZH(ds, i);
    }
  }

  function Org(s: Step): Origin {
    Origin(s.db, s.w, s.b, s.after.rows)
  }

  ghost predicate Done(s: Step, now: Token) {
    Saving(s.db, s.w, s.b, now, s.after)
  }

  /** What is known of the stores around a save. */
  lemma Around(s: Step, now: Token)
    requires Done(s, now)
    ensures WF(s.db) && WF(s.after) && s.w in s.db.words && s.w in s.after.words && RowsFit(s.after.rows)
    ensures s.after.words == s.db.words[s.w := UpdatedRoot(s.db.words[s.w], s.b, now)]
    ensures TreeOf(s.after, s.w) == ServedTree(Org(s), now)
  {
    SaveKeepsWF(s.db, s.w, s.b, now, s.after);
    SavingParts(s.db, s.w, s.b, now, s.after);
    SavedWords(s, now);
    WFParts(s.db);
    hide WF, CanSave, BodyStored, OthersKept, ServedTree, NodesOk, FrequencyOk, TreeOf, RowsFit, Rooted;
    RoundTrip(s.db, s.w, s.b, now, s.after);
  }

  lemma SavedWords(s: Step, now: Token)
    requires Done(s, now)
    ensures s.w in s.db.words
    ensures s.after.words == s.db.words[s.w := UpdatedRoot(s.db.words[s.w], s.b, now)]
  {
    hide WF, Valid, CanSave, BodyStored, OthersKept;
  }

  lemma SentTargetOk(s: Step, now: Token, p: nat, i: nat, k: nat)
    requires Done(s, now) && p < |s.b.pos| && i < |s.b.pos[p].senses| && k < |s.b.pos[p].senses[i].relations|
    ensures var r := s.b.pos[p].senses[i].relations[k];
      TargetOk(s.db, s.w, s.b, RelN(s.b.pos[p].senses[i].id, k, r))
  {
    hide WF, Valid, Replaces;
    RelInDoc(s.b, p, i, k);
    hide Doc, Placed, TargetOk;
  }

  lemma RelInDoc(b: SaveInput, p: nat, i: nat, k: nat)
    requires p < |b.pos| && i < |b.pos[p].senses| && k < |b.pos[p].senses[i].relations|
    ensures RelN(b.pos[p].senses[i].id, k, b.pos[p].senses[i].relations[k]) in Doc(b)
  {
    var tab, s := b.pos[p], b.pos[p].senses[i];
    var n := RelN(s.id, k, s.relations[k]);
    InFlat(s.id, s.relations, RelNodes, n);
    assert n in RelNodes(s.id, k, s.relations[k]);
    InFlat(tab.id, tab.senses, SenseDocNodes, n);
    assert n in SenseDocNodes(tab.id, i, s);
    InFlat(NIL, b.pos, PosDocNodes, n);
    assert n in PosDocNodes(NIL, p, tab);
    hide Flat;
  }

  lemma RelationRow(db: DB, k: Key)
    requires RowsFit(db.rows) && LinksOk(db) && k in db.rows && k.table.Rels?
    ensures db.rows[k].data.RelData? && LinkOk(db, db.rows[k].data.target)
  {
    hide LinkOk;
    assert Fits(k.table, db.rows[k].data);
  }

  lemma OwnedIsKept(s: Step, id: Id)
    ensures Key(Rels, id) in Owned(s.db.rows, s.w) <==> Kept(s, Rels, id)
  {
    hide Root;
  }

  /** What a relation row was, if the entry had it. */
  lemma WasIs(s: Step, id: Id)
    requires RowsFit(s.db.rows) && LinksOk(s.db)
    ensures WasRelation(s, id) <==> Key(Rels, id) in Owned(s.db.rows, s.w)
    ensures WasRelation(s, id) ==> StoredTarget(s.db.rows, Key(Rels, id)) == s.db.rows[Key(Rels, id)].data.target
    ensures WasRelation(s, id) ==> LinkOk(s.db, StoredTarget(s.db.rows, Key(Rels, id)))
  {
    OwnedIsKept(s, id);
    hide Root, RowsFit, LinksOk, LinkOk, Owned;
    if Kept(s, Rels, id) {
      RelationRow(s.db, Key(Rels, id));
    }
  }

  /** The two snapshots and links of a served relation, before it is known what they mean. */
  lemma ServedTarget(s: Step, r: Relation)
    ensures var m, k := ServedRel(Org(s), r).target, Key(Rels, r.id);
      match r.target.word
      case None => m == UnlinkedTarget(StoredTarget(s.db.rows, k), Gone(s.db, s.w, s.b), {})
      case Some(tw) =>
        && m.word == Some(tw) && m.sense == r.target.sense && m.headword == HeadwordOf(s.db, tw)
        && m.gloss ==
          if r.target.sense.Some? then GlossAt(s.after.rows, r.target.sense.value)
          else if k in Owned(s.db.rows, s.w) then StoredTarget(s.db.rows, k).gloss
          else ""
  {
    hide Owned, Gone, StoredTarget, GlossAt, UnlinkedTarget, HeadwordOf;
  }

  lemma FrozenIs(s: Step, r: Relation)
    requires RowsFit(s.db.rows) && LinksOk(s.db) && RowsFit(s.after.rows)
    requires LostFrom(s.db, Lost(Gone(s.db, s.w, s.b), {}), s.after)
    requires r.target.word.None? && Key(Rels, r.id) in Owned(s.db.rows, s.w)
    ensures TargetSaved(s, r.id, r.target, ServedRel(Org(s), r).target)
  {
    WasIs(s, r.id);
    ServedTarget(s, r);
    hide RowsFit, LinksOk, LinkOk, Owned, Gone, LostFrom, UnlinkedTarget, LinkStands, WasRelation, ServedRel, StoredTarget;
    LinkUnlinked(s.db, Lost(Gone(s.db, s.w, s.b), {}), s.after, StoredTarget(s.db.rows, Key(Rels, r.id)));
  }

  lemma ResolvedIs(s: Step, r: Relation)
    requires RowsFit(s.db.rows) && LinksOk(s.db) && RowsFit(s.after.rows) && AllListed(s.after.rows)
    requires r.target.word.Some? && r.target.word.value in s.db.words && LinkOk(s.after, ServedRel(Org(s), r).target)
    ensures TargetSaved(s, r.id, r.target, ServedRel(Org(s), r).target)
  {
    WasIs(s, r.id);
    ServedTarget(s, r);
    hide RowsFit, LinksOk, AllListed, Owned, WasRelation, ServedRel, StoredTarget, GlossAt, DefsOf, IsGloss, Root;
    if r.target.sense.Some? {
      GlossIsGloss(s.after.rows, r.target.sense.value);
    }
  }

  /** What TargetOk says of the words and rows before the save. */
  lemma TargetKnown(s: Step, r: Relation, sense: Id, ord: nat)
    requires TargetOk(s.db, s.w, s.b, RelN(sense, ord, r))
    ensures r.target.word.None? ==> Key(Rels, r.id) in Owned(s.db.rows, s.w)
    ensures r.target.word.Some? ==> r.target.word.value in s.db.words
  {
    hide Owned, LiveSense;
  }

  lemma TargetIs(s: Step, now: Token, p: nat, i: nat, k: nat)
    requires Done(s, now) && RowsFit(s.after.rows)
    requires p < |s.b.pos| && i < |s.b.pos[p].senses| && k < |s.b.pos[p].senses[i].relations|
    requires var r := s.b.pos[p].senses[i].relations[k]; LinkOk(s.after, ServedRel(Org(s), r).target)
    ensures var r := s.b.pos[p].senses[i].relations[k];
      TargetSaved(s, r.id, r.target, ServedRel(Org(s), r).target)
  {
    var r, sense := s.b.pos[p].senses[i].relations[k], s.b.pos[p].senses[i].id;
    Around(s, now);
    WFParts(s.db);
    WFParts(s.after);
    SentTargetOk(s, now, p, i, k);
    TargetKnown(s, r, sense, k);
    hide *;
    if r.target.word.None? {
      Loses(s, now);
      FrozenIs(s, r);
    } else {
      ResolvedIs(s, r);
    }
  }

  lemma Loses(s: Step, now: Token)
    requires Done(s, now)
    ensures LostFrom(s.db, Lost(Gone(s.db, s.w, s.b), {}), s.after)
  {
    hide Saving, LostFrom, Gone;
    SavedLoses(s.db, s.w, s.b, now, s.after);
  }

  // --- Level by level ---

  lemma FormIs(s: Step, p: Form)
    ensures FormSaved(s, p, ServedForm(Org(s), p))
  {
    hide KeptAudio, AudioStays;
    forall i | 0 <= i < |p.pronunciations| ensures PronSaved(s, p.pronunciations[i], ServedProns(Org(s), p.pronunciations)[i]) {
      AudioIs(s, Prons, p.pronunciations[i].id);
    }
  }

  lemma StructIs(s: Step, p: GrammarStructure)
    ensures StructSaved(s, p, ServedStruct(Org(s), p))
  {
    hide KeptAudio, AudioStays;
    forall i | 0 <= i < |p.variants| ensures VariantSaved(s, p.variants[i], ServedVariants(Org(s), p.variants)[i]) {
      AudioIs(s, Variants, p.variants[i].id);
    }
  }

  lemma LeavesAre(s: Step, p: Sense)
    ensures var q := ServedSense(Org(s), p);
      && |q.definitions| == |p.definitions| && |q.sentences| == |p.sentences|
      && (forall i | 0 <= i < |p.definitions| :: DefinitionSaved(s, p.definitions[i], q.definitions[i]))
      && (forall i | 0 <= i < |p.sentences| :: SentenceSaved(s, p.sentences[i], q.sentences[i]))
  {
    hide KeptAudio, AudioStays;
    forall i | 0 <= i < |p.definitions| ensures DefinitionSaved(s, p.definitions[i], ServedDefs(Org(s), p.definitions)[i]) {
      AudioIs(s, Defs, p.definitions[i].id);
    }
    forall i | 0 <= i < |p.sentences| ensures SentenceSaved(s, p.sentences[i], ServedSents(Org(s), p.sentences)[i]) {
      AudioIs(s, Sents, p.sentences[i].id);
    }
  }

  lemma RelationsAre(s: Step, now: Token, p: nat, i: nat)
    requires Done(s, now) && RowsFit(s.after.rows) && p < |s.b.pos| && i < |s.b.pos[p].senses|
    requires forall k: nat | k < |s.b.pos[p].senses[i].relations| ::
      LinkOk(s.after, ServedRel(Org(s), s.b.pos[p].senses[i].relations[k]).target)
    ensures forall k: nat | k < |s.b.pos[p].senses[i].relations| ::
      RelSaved(s, s.b.pos[p].senses[i].relations[k], ServedRel(Org(s), s.b.pos[p].senses[i].relations[k]))
  {
    hide Done, RowsFit, LinkOk, TargetSaved, SavedLink;
    forall k: nat | k < |s.b.pos[p].senses[i].relations|
      ensures RelSaved(s, s.b.pos[p].senses[i].relations[k], ServedRel(Org(s), s.b.pos[p].senses[i].relations[k]))
    {
      TargetIs(s, now, p, i, k);
    }
  }

  /** The links of the served tree are in order, because the store after the save is. */
  lemma ServedLinksOk(s: Step, now: Token, p: nat, i: nat, k: nat)
    requires Done(s, now) && p < |s.b.pos| && i < |s.b.pos[p].senses| && k < |s.b.pos[p].senses[i].relations|
    ensures LinkOk(s.after, ServedRel(Org(s), s.b.pos[p].senses[i].relations[k]).target)
  {
    Around(s, now);
    WFParts(s.after);
    ServedAt(s, now, p, i, k);
    hide Done, WF, RowsFit, LinksOk, Rooted, AllListed, RefsInside, UniqueOk, LinkOk, TreeOf, ServedRel, ServedTree, UpdatedRoot;
    TreeLinkOk(s.after, s.w, p, i, k);
  }

  lemma ServedAt(s: Step, now: Token, p: nat, i: nat, k: nat)
    requires s.w in s.db.words
    requires p < |s.b.pos| && i < |s.b.pos[p].senses| && k < |s.b.pos[p].senses[i].relations|
    ensures var t := ServedTree(Org(s), now);
      && p < |t.pos| && i < |t.pos[p].senses| && k < |t.pos[p].senses[i].relations|
      && t.pos[p].senses[i].relations[k] == ServedRel(Org(s), s.b.pos[p].senses[i].relations[k])
  {
    hide ServedRel;
  }

  lemma SenseAssembled(s: Step, x: Sense)
    requires RowsFit(s.after.rows)
    requires forall k: nat | k < |x.relations| :: RelSaved(s, x.relations[k], ServedRel(Org(s), x.relations[k]))
    ensures SenseSaved(s, x, ServedSense(Org(s), x))
  {
    LeavesAre(s, x);
    hide RowsFit, DefinitionSaved, SentenceSaved, RelSaved, ServedRel, ServedDefs, ServedSents;
  }

  lemma AllLinksOk(s: Step, now: Token, p: nat, i: nat)
    requires Done(s, now) && p < |s.b.pos| && i < |s.b.pos[p].senses|
    ensures forall k: nat | k < |s.b.pos[p].senses[i].relations| ::
      LinkOk(s.after, ServedRel(Org(s), s.b.pos[p].senses[i].relations[k]).target)
  {
    hide Done, LinkOk, ServedRel;
    forall k: nat | k < |s.b.pos[p].senses[i].relations|
      ensures LinkOk(s.after, ServedRel(Org(s), s.b.pos[p].senses[i].relations[k]).target)
    {
      ServedLinksOk(s, now, p, i, k);
    }
  }

  lemma SenseIs(s: Step, now: Token, p: nat, i: nat)
    requires Done(s, now) && RowsFit(s.after.rows) && p < |s.b.pos| && i < |s.b.pos[p].senses|
    ensures SenseSaved(s, s.b.pos[p].senses[i], ServedSense(Org(s), s.b.pos[p].senses[i]))
  {
    hide *;
    AllLinksOk(s, now, p, i);
    RelationsAre(s, now, p, i);
    SenseAssembled(s, s.b.pos[p].senses[i]);
  }

  lemma TabIs(s: Step, now: Token, p: nat)
    requires Done(s, now) && RowsFit(s.after.rows) && p < |s.b.pos|
    ensures TabSaved(s, s.b.pos[p], ServedTab(Org(s), s.b.pos[p]))
  {
    hide Done, RowsFit, FormSaved, StructSaved, SenseSaved, ServedForm, ServedStruct, ServedSense;
    var tab := s.b.pos[p];
    forall i: nat | i < |tab.forms| ensures FormSaved(s, tab.forms[i], ServedForm(Org(s), tab.forms[i])) {
      FormIs(s, tab.forms[i]);
    }
    forall i: nat | i < |tab.structures| ensures StructSaved(s, tab.structures[i], ServedStruct(Org(s), tab.structures[i])) {
      StructIs(s, tab.structures[i]);
    }
    forall i: nat | i < |tab.senses| ensures SenseSaved(s, tab.senses[i], ServedSense(Org(s), tab.senses[i])) {
      SenseIs(s, now, p, i);
    }
  }

  lemma ServedIsSaved(s: Step, now: Token)
    requires Done(s, now) && RowsFit(s.after.rows) && s.w in s.db.words
    ensures TreeSaved(s, now, ServedTree(Org(s), now))
  {
    hide Done, RowsFit, TabSaved, ServedTab;
    forall p: nat | p < |s.b.pos| ensures TabSaved(s, s.b.pos[p], ServedTab(Org(s), s.b.pos[p])) {
      TabIs(s, now, p);
    }
  }

  /** Saved, then loaded: content as sent, audio by id, targets by the three-way rule. */
  lemma SavedThenLoaded(db: DB, w: Id, b: SaveInput, now: Token, after: DB)
    requires Saving(db, w, b, now, after)
    ensures RowsFit(after.rows) && w in db.words && w in after.words
    ensures TreeSaved(Step(db, w, b, after), now, TreeOf(after, w))
  {
    var s := Step(db, w, b, after);
    assert Done(s, now);
    hide Saving, Done, TreeSaved, TreeOf, ServedTree, WF, RowsFit;
    Around(s, now);
    ServedIsSaved(s, now);
  }
}
