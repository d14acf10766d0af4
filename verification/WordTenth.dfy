/**
 Rule V10 and other entries' saves: exactly which entries a save can leave with a live related
 word but no picked sense, and a run of the service in which that happens to a published entry.
 */
module WordTenth {
  import opened Basics
  import opened WordModel
  import opened WordTables
  import opened WordValidation
  import opened WordPublish
  import opened WordStore
  import opened WordRead
  import opened WordReplace
  import opened WordInvariant
  import opened WordFrame
  import opened WordSaveProof
  import opened WordSave
  import opened WordSaveInvariant
  import opened WordWrites
  import opened WordRepository
  import opened WordService

  /** A relation that picks a sense of word w. */
  predicate PicksFrom(r: Relation, w: Id) {
    r.target.word == Some(w) && r.target.sense.Some?
  }

  predicate PickAt(ps: seq<POS>, p: nat, i: nat, k: nat, w: Id) {
    p < |ps| && i < |ps[p].senses| && k < |ps[p].senses[i].relations| && PicksFrom(ps[p].senses[i].relations[k], w)
  }

  ghost predicate Picks(ps: seq<POS>, w: Id) {
    exists p: nat, i: nat, k: nat :: PickAt(ps, p, i, k, w)
  }

  ghost predicate TenthFails(db: DB, v: Id) {
    RowsFit(db.rows) && v in db.words && !TenthHolds(TreeOf(db, v).pos)
  }

  /** Some save of w takes V10 away from v. */
  ghost predicate Breakable(db: DB, w: Id, v: Id, now: Token) {
    exists b, after :: Saving(db, w, b, now, after) && TenthFails(after, v)
  }

  // --- The save that empties an entry ---

  /** The entry as it is, without its tree. */
  function Emptied(r: WordRow): SaveInput {
    SaveInput(r.token, OrBlank(r.frequency), r.mode, r.dialects, [], [])
  }

  lemma EmptiedNodes(r: WordRow)
    ensures Doc(Emptied(r)) == [] && NodesOk(Emptied(r))
  {
  }

  lemma EmptiedValid(db: DB, w: Id)
    requires WF(db) && w in db.words
    ensures Valid(Emptied(db.words[w]))
  {
    EntryValid(db, w);
    EmptiedNodes(db.words[w]);
    hide WF, NodesOk, ModeOk, FrequencyOk, RowsFit, GroupsOf, TabsOf;
  }

  lemma EmptiedCanSave(db: DB, w: Id)
    requires w in db.words
    ensures CanSave(db, w, Emptied(db.words[w]))
    ensures Gone(db, w, Emptied(db.words[w])) == Owned(db.rows, w)
  {
    EmptiedNodes(db.words[w]);
    hide NodesOk, Root;
  }

  lemma EmptiedSaves(db: DB, w: Id, now: Token) returns (after: DB)
    requires WF(db) && w in db.words && now != ZERO_TIME
    ensures Saving(db, w, Emptied(db.words[w]), now, after)
    ensures Gone(db, w, Emptied(db.words[w])) == Owned(db.rows, w)
  {
    var b := Emptied(db.words[w]);
    EmptiedValid(db, w);
    EmptiedCanSave(db, w);
    hide WF, Valid, CanSave, Replaces, Blames, Gone, Run, FirstRun, UniqueOk, KeepsHeadwords;
    SaveMeaning(db, w, b, now);
    after := Run(FirstRun(db, w, b, now), w, Owned(db.rows, w), SecondPass(b)).value;
  }

  // --- Exactly the entries that pick a sense of w ---

  /** The sense a relation picks belongs to the word it links to. */
  lemma PickedIsOwned(db: DB, v: Id, p: nat, i: nat, k: nat)
    requires WF(db) && v in db.words
    requires var t := TreeOf(db, v);
      p < |t.pos| && i < |t.pos[p].senses| && k < |t.pos[p].senses[i].relations|
      && t.pos[p].senses[i].relations[k].target.sense.Some?
    ensures RowsFit(db.rows)
    ensures var link := TreeOf(db, v).pos[p].senses[i].relations[k].target;
      link.word.Some? && Root(db.rows, Key(Senses, link.sense.value)) == link.word
  {
    WFParts(db);
    hide WF, RowsFit, Rooted, AllListed, LinksOk, RefsInside, UniqueOk, TreeOf, Root;
    TreeLinkOk(db, v, p, i, k);
  }

  lemma NotAlive(ps: seq<POS>, p: nat, i: nat, k: nat, dead: set<Key>)
    requires p < |ps| && i < |ps[p].senses| && k < |ps[p].senses[i].relations|
    requires !LinkAlive(ps[p].senses[i].relations[k], dead)
    ensures !PickedAlive(ps, dead)
  {
    hide LinkAlive;
    assert !SenseAlive(ps[p].senses[i], dead);
    assert !TabAlive(ps[p], dead);
  }

  lemma OneNotAlive(ps: seq<POS>, dead: set<Key>) returns (p: nat, i: nat, k: nat)
    requires !PickedAlive(ps, dead)
    ensures p < |ps| && i < |ps[p].senses| && k < |ps[p].senses[i].relations|
    ensures !LinkAlive(ps[p].senses[i].relations[k], dead)
  {
    hide LinkAlive;
    p :| p < |ps| && !TabAlive(ps[p], dead);
    i :| i < |ps[p].senses| && !SenseAlive(ps[p].senses[i], dead);
    k :| k < |ps[p].senses[i].relations| && !LinkAlive(ps[p].senses[i].relations[k], dead);
  }

  /** An entry that picks a sense of w loses V10 when w is emptied. */
  lemma EmptyingBreaks(db: DB, w: Id, v: Id, now: Token) returns (after: DB)
    requires WF(db) && v in db.words && w in db.words && v != w && now != ZERO_TIME
    requires Picks(TreeOf(db, v).pos, w)
    ensures Saving(db, w, Emptied(db.words[w]), now, after) && TenthFails(after, v)
  {
    after := EmptiedSaves(db, w, now);
    WFParts(db);
    hide WF, Saving, Rooted, RowsFit, AllListed, LinksOk, RefsInside, UniqueOk, TreeOf, Owned, Gone, PickedAlive, TenthHolds,
      Emptied, PickAt;
    var p: nat, i: nat, k: nat :| PickAt(TreeOf(db, v).pos, p, i, k, w);
    PickGoes(db, w, v, p, i, k);
    TenthAfterSave(db, w, Emptied(db.words[w]), now, after, v);
  }

  lemma PickGoes(db: DB, w: Id, v: Id, p: nat, i: nat, k: nat)
    requires WF(db) && v in db.words && PickAt(TreeOf(db, v).pos, p, i, k, w)
    ensures !PickedAlive(TreeOf(db, v).pos, Owned(db.rows, w))
  {
    hide WF, RowsFit, TreeOf, Root, PickedAlive;
    PickedIsOwned(db, v, p, i, k);
    var ps := TreeOf(db, v).pos;
    SenseIsRow(db.rows, Key(Senses, ps[p].senses[i].relations[k].target.sense.value));
    NotAlive(ps, p, i, k, Owned(db.rows, w));
  }

  lemma SenseIsRow(rows: Rows, k: Key)
    requires Root(rows, k).Some?
    ensures k in rows
  {
  }

  /** A save of w only takes V10 away from entries that pick a sense of w. */
  lemma BreaksOnlyPickers(db: DB, w: Id, b: SaveInput, v: Id, now: Token, after: DB)
    requires Saving(db, w, b, now, after) && TenthFails(after, v) && v in db.words && v != w
    ensures RowsFit(db.rows)
    ensures TenthHolds(TreeOf(db, v).pos) ==> Picks(TreeOf(db, v).pos, w)
  {
    TenthAfterSave(db, w, b, now, after, v);
    SavingParts(db, w, b, now, after);
    hide WF, Saving, RowsFit, TreeOf, Root, PickedAlive, TenthHolds, LinkAlive;
    var ps := TreeOf(db, v).pos;
    if TenthHolds(ps) {
      TenthIs(ps);
      var p, i, k := OneNotAlive(ps, Gone(db, w, b));
      StillAlive(ps, p, i, k);
      LinkBroken(ps[p].senses[i].relations[k], Gone(db, w, b));
      PickedIsOwned(db, v, p, i, k);
      assert PickAt(ps, p, i, k, w);
    }
  }

  lemma StillAlive(ps: seq<POS>, p: nat, i: nat, k: nat)
    requires PickedAlive(ps, {}) && p < |ps| && i < |ps[p].senses| && k < |ps[p].senses[i].relations|
    ensures LinkAlive(ps[p].senses[i].relations[k], {})
  {
    hide LinkAlive;
    assert TabAlive(ps[p], {});
    assert SenseAlive(ps[p].senses[i], {});
  }

  lemma LinkBroken(r: Relation, dead: set<Key>)
    requires LinkAlive(r, {}) && !LinkAlive(r, dead)
    ensures r.target.sense.Some? && Key(Senses, r.target.sense.value) in dead
  {
  }

  /**
   Which entries other saves can leave without V10: of those that meet it, exactly the ones that
   pick a sense of the entry being saved.
   */
  lemma TenthCanBreak(db: DB, w: Id, v: Id, now: Token)
    requires WF(db) && v in db.words && w in db.words && v != w && now != ZERO_TIME
    requires TenthHolds(TreeOf(db, v).pos)
    ensures RowsFit(db.rows)
    ensures Breakable(db, w, v, now) <==> Picks(TreeOf(db, v).pos, w)
  {
    WFParts(db);
    hide WF, Saving, Rooted, RowsFit, AllListed, LinksOk, RefsInside, UniqueOk, TreeOf, TenthHolds, TenthFails, Picks;
    if Picks(TreeOf(db, v).pos, w) {
      var after := EmptyingBreaks(db, w, v, now);
    }
    if b, after :| Saving(db, w, b, now, after) && TenthFails(after, v) {
      BreaksOnlyPickers(db, w, b, v, now, after);
    }
  }
}
