/**
 What a save or a delete of some entries means to the others, said of the trees they load as: all stays
 as it is, except that links to words and senses that no longer exist are gone.
 */
module WordLinks {
  import opened Basics
  import opened WordModel
  import opened WordTables
  import opened WordValidation
  import opened WordStore
  import opened WordRead
  import opened WordSave
  import opened WordReplace
  import opened WordKids
  import opened WordInvariant
  import opened WordFrame
  import opened WordSaveInvariant
  import opened WordWrites

  /** Link m is link l as the store still supports it; the display snapshots stay in any case. */
  predicate LinkStands(after: DB, l: Link, m: Link) {
    && m.headword == l.headword && m.gloss == l.gloss
    && m.word == (if l.word.Some? && l.word.value in after.words then l.word else None)
    && m.sense == (if l.sense.Some? && Key(Senses, l.sense.value) in after.rows then l.sense else None)
  }

  predicate RelStands(after: DB, r: Relation, q: Relation) {
    q.id == r.id && q.relation == r.relation && q.score == r.score && LinkStands(after, r.target, q.target)
  }

  predicate SenseStands(after: DB, s: Sense, q: Sense) {
    && q.id == s.id && q.subPos == s.subPos && q.level == s.level && q.group == s.group && q.frequency == s.frequency
    && q.dependsOnContext == s.dependsOnContext && q.definitions == s.definitions && q.sentences == s.sentences
    && |q.relations| == |s.relations| && forall i | 0 <= i < |s.relations| :: RelStands(after, s.relations[i], q.relations[i])
  }

  predicate TabStands(after: DB, p: POS, q: POS) {
    && q.id == p.id && q.pos == p.pos && q.forms == p.forms && q.structures == p.structures
    && |q.senses| == |p.senses| && forall i | 0 <= i < |p.senses| :: SenseStands(after, p.senses[i], q.senses[i])
  }

  /** u is t with its links as the store still supports them. */
  predicate TreeStands(after: DB, t: Word, u: Word) {
    && u.id == t.id && u.kind == t.kind && u.headword == t.headword && u.frequency == t.frequency && u.mode == t.mode
    && u.dialects == t.dialects && u.status == t.status && u.createdBy == t.createdBy && u.updatedAt == t.updatedAt
    && u.groups == t.groups
    && |u.pos| == |t.pos| && forall p | 0 <= p < |t.pos| :: TabStands(after, t.pos[p], u.pos[p])
  }

  /** Every entry but those in ws stands. */
  ghost predicate OthersStand(db: DB, after: DB, ws: set<Id>) {
    && RowsFit(db.rows) && RowsFit(after.rows)
    && forall v | v in db.words && v !in ws :: v in after.words && TreeStands(after, TreeOf(db, v), TreeOf(after, v))
  }

  /** What is lost is what the store no longer has. */
  ghost predicate LostFrom(db: DB, x: Lost, after: DB) {
    && (forall w | w in db.words :: w in x.words <==> w !in after.words)
    && (forall k | k in db.rows :: k in x.dead <==> k !in after.rows)
  }

  lemma LinkUnlinked(db: DB, x: Lost, after: DB, l: Link)
    requires LinkOk(db, l) && LostFrom(db, x, after)
    ensures LinkStands(after, l, UnlinkedTarget(l, x.dead, x.words))
  {
    if l.sense.Some? {
      RootInRows(db.rows, Key(Senses, l.sense.value));
    }
  }

  lemma UnlinkedStands(db: DB, x: Lost, after: DB, v: Id)
    requires WF(db) && v in db.words && LostFrom(db, x, after)
    ensures TreeStands(after, TreeOf(db, v), UnlinkedTree(x, TreeOf(db, v)))
  {
    hide *;
    WFParts(db);
    var t := TreeOf(db, v);
    forall p: nat | p < |t.pos| ensures TabStands(after, t.pos[p], UnlinkedTab(x, t.pos[p])) {
      UnlinkedSensesStand(db, x, after, v, p);
    }
    UnlinkedTreeStands(x, after, t);
  }

  lemma UnlinkedTreeStands(x: Lost, after: DB, t: Word)
    requires forall p: nat | p < |t.pos| :: TabStands(after, t.pos[p], UnlinkedTab(x, t.pos[p]))
    ensures TreeStands(after, t, UnlinkedTree(x, t))
  {
    hide TabStands, UnlinkedTab;
  }

  lemma UnlinkedSensesStand(db: DB, x: Lost, after: DB, v: Id, p: nat)
    requires RowsFit(db.rows) && LinksOk(db) && v in db.words && LostFrom(db, x, after)
    requires p < |TreeOf(db, v).pos|
    ensures TabStands(after, TreeOf(db, v).pos[p], UnlinkedTab(x, TreeOf(db, v).pos[p]))
  {
    hide RowsFit, LinksOk, LostFrom, TreeOf, SenseStands, UnlinkedSense, UnlinkedTab, TabStands;
    var tab := TreeOf(db, v).pos[p];
    forall i: nat | i < |tab.senses| ensures SenseStands(after, tab.senses[i], UnlinkedSense(x, tab.senses[i])) {
      UnlinkedSenseStands(db, x, after, v, p, i);
    }
    UnlinkedTabStands(x, after, tab);
  }

  lemma UnlinkedTabStands(x: Lost, after: DB, p: POS)
    requires forall i: nat | i < |p.senses| :: SenseStands(after, p.senses[i], UnlinkedSense(x, p.senses[i]))
    ensures TabStands(after, p, UnlinkedTab(x, p))
  {
    hide SenseStands, UnlinkedSense;
  }

  lemma UnlinkedSenseStands(db: DB, x: Lost, after: DB, v: Id, p: nat, i: nat)
    requires RowsFit(db.rows) && LinksOk(db) && v in db.words && LostFrom(db, x, after)
    requires var t := TreeOf(db, v); p < |t.pos| && i < |t.pos[p].senses|
    ensures var s := TreeOf(db, v).pos[p].senses[i]; SenseStands(after, s, UnlinkedSense(x, s))
  {
    hide RowsFit, LinksOk, LostFrom, TreeOf, LinkOk, LinkStands, UnlinkedTarget;
    var s := TreeOf(db, v).pos[p].senses[i];
    forall k: nat | k < |s.relations| ensures RelStands(after, s.relations[k], UnlinkedRels(x, s.relations)[k]) {
      TreeLinkOk(db, v, p, i, k);
      LinkUnlinked(db, x, after, s.relations[k].target);
    }
  }

  // --- Deletes ---

  lemma DeleteLoses(db: DB, ws: set<Id>)
    ensures LostFrom(db, LostWith(db, ws), DeleteWords(db, ws))
  {
    hide Root, Unlinked;
  }

  /** Deleting entries leaves the others standing; the rows that go are exactly those of the deleted ones. */
  lemma DeleteStands(db: DB, ws: set<Id>)
    requires WF(db)
    ensures var after := DeleteWords(db, ws);
      && after.words == db.words - ws
      && (forall k | k in db.rows :: k in after.rows <==> Root(db.rows, k).Some? && Root(db.rows, k).value !in ws)
      && (forall k | k in after.rows :: k in db.rows)
      && OthersStand(db, after, ws)
  {
    WFParts(db);
    DeletedFits(db, ws);
    DeleteLoses(db, ws);
    RowsDeleted(db, ws);
    hide WF, DeleteWords, RowsFit, LinksOk, Rooted, AllListed, RefsInside, UniqueOk, LostFrom, LostWith, TreeOf, TreeStands, UnlinkedTree;
    var after := DeleteWords(db, ws);
    forall v | v in db.words && v !in ws ensures v in after.words && TreeStands(after, TreeOf(db, v), TreeOf(after, v)) {
      DeleteLeavesOthers(db, ws, v);
      UnlinkedStands(db, LostWith(db, ws), after, v);
    }
  }

  lemma RowsDeleted(db: DB, ws: set<Id>)
    requires Rooted(db)
    ensures var after := DeleteWords(db, ws);
      && after.words == db.words - ws
      && (forall k | k in db.rows :: k in after.rows <==> Root(db.rows, k).Some? && Root(db.rows, k).value !in ws)
      && (forall k | k in after.rows :: k in db.rows)
  {
    forall k | k in db.rows ensures Root(db.rows, k).Some? {
      RootExists(db, k);
    }
    hide Root, Unlinked, Rooted;
  }

  // --- Saves ---

  lemma SaveLoses(db: DB, w: Id, b: SaveInput, now: Token, after: DB)
    requires Stored(db, w, b, after.rows) && Replaces(db, w, b, now, after)
    ensures LostFrom(db, Lost(Gone(db, w, b), {}), after)
  {
    hide NodesOk, Rooted, Root, Split, Unlinked, SavedRow, Doc;
    forall k | k in Incoming(b) ensures k in after.rows {
      var n :| n in Doc(b) && KeyOf(n) == k;
    }
  }

  /** A save of one entry leaves the others standing. */
  lemma SaveStands(db: DB, w: Id, b: SaveInput, now: Token, after: DB)
    requires Saving(db, w, b, now, after)
    ensures OthersStand(db, after, {w})
  {
    SavingParts(db, w, b, now, after);
    hide *;
    SavedFits(db, w, b, now, after);
    forall v | v in db.words && v != w ensures v in after.words && TreeStands(after, TreeOf(db, v), TreeOf(after, v)) {
      SaveStandsAt(db, w, b, now, after, v);
    }
    AllStand(db, after, {w});
  }

  lemma AllStand(db: DB, after: DB, ws: set<Id>)
    requires RowsFit(db.rows) && RowsFit(after.rows)
    requires forall v | v in db.words && v !in ws ::
      v in after.words && TreeStands(after, TreeOf(db, v), TreeOf(after, v))
    ensures OthersStand(db, after, ws)
  {
    hide RowsFit, TreeOf, TreeStands;
  }

  lemma SavedFits(db: DB, w: Id, b: SaveInput, now: Token, after: DB)
    requires Saving(db, w, b, now, after)
    ensures RowsFit(db.rows) && RowsFit(after.rows)
  {
    SavingParts(db, w, b, now, after);
    SavedEntryValid(db, w, b, now, after);
    WFParts(db);
    hide WF, Saving, RowsFit;
  }

  lemma SaveStandsAt(db: DB, w: Id, b: SaveInput, now: Token, after: DB, v: Id)
    requires Saving(db, w, b, now, after) && v in db.words && v != w
    ensures RowsFit(db.rows) && RowsFit(after.rows) && v in after.words
    ensures TreeStands(after, TreeOf(db, v), TreeOf(after, v))
  {
    SavingParts(db, w, b, now, after);
    SavedLoses(db, w, b, now, after);
    hide WF, Saving, RowsFit, LostFrom, Gone, TreeOf, TreeStands, UnlinkedTree;
    OthersUntouched(db, w, b, now, after, v);
    UnlinkedStands(db, Lost(Gone(db, w, b), {}), after, v);
  }

  lemma SavedLoses(db: DB, w: Id, b: SaveInput, now: Token, after: DB)
    requires Saving(db, w, b, now, after)
    ensures LostFrom(db, Lost(Gone(db, w, b), {}), after)
  {
    SavingStored(db, w, b, now, after);
    hide WF, Valid, CanSave, Replaces, Stored, LostFrom;
    SaveLoses(db, w, b, now, after);
  }
}
