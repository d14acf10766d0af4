/**
 Save and Publish as single calls (internal/word/service.go): read, validate, hold published
 entries to the publish rules, write, read back.
 */
module WordRequests {
  import opened Basics
  import opened WordModel
  import opened WordTables
  import opened WordValidation
  import opened WordTidy
  import opened WordPublish
  import opened WordRead
  import opened WordStore
  import opened WordSave
  import opened WordReplace
  import opened WordRoundTrip
  import opened WordInvariant
  import opened WordSaveInvariant
  import opened WordWrites
  import opened WordRepository
  import opened WordService

  datatype RequestError = NoWord | InvalidInput | Incomplete(rules: seq<Rule>) | NotSaved(error: SaveError)

  /** The body goes to the store only if it is valid and, for a published entry, publishable. */
  ghost predicate Admitted(db: DB, w: Id, b: SaveInput) {
    w in db.words && Valid(b) && (db.words[w].status == Published ==> PublishableBody(b))
  }

  /** The rules listed are those that are broken, and there is one. */
  predicate Lists(v: seq<Rule>, b: SaveInput) {
    v != [] && forall rule :: rule in v <==> !Meets(rule, b.frequency, b.mode, b.dialects, b.pos)
  }

  /** What each error of Save says; no two apply at once. */
  ghost predicate SaveRefused(db: DB, w: Id, b: SaveInput, e: RequestError) {
    match e
    case NoWord => w !in db.words
    case InvalidInput => w in db.words && !Valid(b)
    case Incomplete(v) => w in db.words && Valid(b) && db.words[w].status == Published && Lists(v, b)
    case NotSaved(f) => Admitted(db, w, b) && Blames(db, w, b, f)
  }

  lemma RefusedBefore(db: DB, w: Id, b: SaveInput)
    ensures w !in db.words ==> SaveRefused(db, w, b, NoWord)
    ensures w in db.words && !Valid(b) ==> SaveRefused(db, w, b, InvalidInput)
  {
    hide Valid;
  }

  lemma RefusedIncomplete(db: DB, w: Id, b: SaveInput, v: seq<Rule>)
    requires w in db.words && Valid(b) && db.words[w].status == Published && Lists(v, b)
    ensures SaveRefused(db, w, b, Incomplete(v))
  {
    hide Valid, Lists;
  }

  lemma RefusedByStore(db: DB, w: Id, b: SaveInput, e: SaveError)
    requires Admitted(db, w, b) && Blames(db, w, b, e)
    ensures SaveRefused(db, w, b, NotSaved(e))
  {
    hide Admitted, Blames;
  }

  method BrokenRules(b: SaveInput) returns (v: seq<Rule>)
    requires Valid(b)
    ensures v == [] <==> PublishableBody(b)
    ensures v != [] ==> Lists(v, b)
  {
    hide NodesOk, FrequencyOk, Meets, Publishable;
    v := PublishViolations(b.frequency, b.mode, b.dialects, b.pos);
  }

  class Service {
    const store: Repository

    constructor (store: Repository)
      ensures this.store == store
    {
      this.store := store;
    }

    /** The result of a save is the body's tree as the store now serves it. */
    method Save(w: Id, input: SaveInput, now: Token) returns (r: Result<Word, RequestError>)
      requires store.Valid() && now != ZERO_TIME
      modifies store
      ensures store.Valid()
      ensures r.Ok? <==> Admitted(old(store.db), w, Normalized(input)) && CanSave(old(store.db), w, Normalized(input))
      ensures PublishedComplete(old(store.db)) ==> PublishedComplete(store.db)
      ensures r.Ok? ==> Replaces(old(store.db), w, Normalized(input), now, store.db)
      ensures r.Ok? ==> r.value == ServedTree(Origin(old(store.db), w, Normalized(input), store.db.rows), now)
      ensures r.Err? ==> store.db == old(store.db) && SaveRefused(old(store.db), w, Normalized(input), r.error)
    {
      ghost var db := store.db;
      hide PublishedComplete, SaveRefused, Blames, Lists, PublishableBody, WF, WordValidation.Valid, CanSave, Replaces, TreeOf,
        HeadwordsUnique, RowsFit, Normalized, ModeOk;
      var current := store.GetTree(w);
      RefusedBefore(db, w, Normalized(input));
      if current.None? {
        return Err(NoWord);
      }
      TreeStatus(store.db, w);
      var checked := ValidateTree(input);
      if checked.None? {
        return Err(InvalidInput);
      }
      var b := checked.value;
      if current.value.status == Published {
        var v := BrokenRules(b);
        if v != [] {
          RefusedIncomplete(db, w, b, v);
          return Err(Incomplete(v));
        }
      }
      var failed := store.SaveTree(w, b, now);
      if failed.Some? {
        RefusedByStore(db, w, b, failed.value);
        return Err(NotSaved(failed.value));
      }
      SavedTree(db, w, b, now, store.db);
      SaveKeepsPublished(db, w, b, now, store.db);
      var saved := store.GetTree(w);
      return Ok(saved.value);
    }

    /** Publishing flips the status of a tree that meets every rule, and changes nothing else. */
    method Publish(w: Id, now: Token) returns (r: Result<Word, RequestError>)
      requires store.Valid() && now != ZERO_TIME
      modifies store
      ensures store.Valid() && RowsFit(old(store.db).rows)
      ensures r.Ok? <==> w in old(store.db.words) && PublishableBody(Echo(TreeOf(old(store.db), w)))
      ensures PublishedComplete(old(store.db)) ==> PublishedComplete(store.db)
      ensures r.Ok? ==> store.db == StatusSet(old(store.db), w, Published, now)
      ensures r.Ok? ==> r.value == TreeOf(old(store.db), w).(status := Published, updatedAt := now)
      ensures r.Err? ==> store.db == old(store.db)
      ensures w !in old(store.db.words) ==> r == Err(NoWord)
      ensures w in old(store.db.words) && r.Err? ==>
        r.error.Incomplete? && Lists(r.error.rules, Echo(TreeOf(old(store.db), w)))
    {
      ghost var db := store.db;
      WFParts(db);
      hide PublishedComplete, WF, WordValidation.Valid, TreeOf, HeadwordsUnique, RowsFit, ModeOk;
      var tree := store.GetTree(w);
      if tree.None? {
        return Err(NoWord);
      }
      TreeStatus(store.db, w);
      var t := tree.value;
      var v := PublishViolations(t.frequency, t.mode, t.dialects, t.pos);
      if v != [] {
        return Err(Incomplete(v));
      }
      StatusKeepsWF(db, w, Published, now);
      FlipKeepsPublished(db, w, now);
      var failed := store.SetStatus(w, Published, t.updatedAt, now);
      assert failed.None?;
      var published := store.GetTree(w);
      return Ok(published.value);
    }
  }

  /** No save makes a published entry incomplete: the one saved was held to the rules, the others do not depend on it. */
  lemma SaveKeepsPublished(db: DB, w: Id, b: SaveInput, now: Token, after: DB)
    requires WF(db) && Admitted(db, w, b) && CanSave(db, w, b) && Replaces(db, w, b, now, after) && now != ZERO_TIME
    ensures PublishedComplete(db) ==> PublishedComplete(after)
  {
    assert Saving(db, w, b, now, after);
    PublishableIs(b);
    hide Saving, WF, Valid, CanSave, Replaces, Blessed, PublishableBody, CompleteBody;
    if PublishedComplete(db) {
      forall v | v in after.words && after.words[v].status == Published ensures Blessed(after, v) {
        SaveOtherRow(db, w, b, now, after, v);
        if v == w {
          SavedComplete(db, w, b, now, after);
        } else {
          SaveOther(db, w, b, now, after, v);
        }
      }
    }
  }

  lemma FlipKeepsPublished(db: DB, w: Id, now: Token)
    requires WF(db) && RowsFit(db.rows) && w in db.words && now != ZERO_TIME && PublishableBody(Echo(TreeOf(db, w)))
    ensures PublishedComplete(db) ==> PublishedComplete(StatusSet(db, w, Published, now))
  {
    StatusEffect(db, w, now);
    PublishableIs(Echo(TreeOf(db, w)));
    SameCompleteness(TreeOf(db, w));
    hide WF, RowsFit, TreeOf, CompleteTree, CompleteBody, PublishableBody, StatusSet, Meets;
  }

  lemma TreeStatus(db: DB, w: Id)
    requires WF(db) && RowsFit(db.rows) && w in db.words
    ensures TreeOf(db, w).status == db.words[w].status && TreeOf(db, w).updatedAt == db.words[w].token
  {
  }

  lemma SavedTree(db: DB, w: Id, b: SaveInput, now: Token, after: DB)
    requires WF(db) && Valid(b) && CanSave(db, w, b) && Replaces(db, w, b, now, after) && now != ZERO_TIME
    ensures w in db.words && w in after.words && RowsFit(after.rows)
    ensures TreeOf(after, w) == ServedTree(Origin(db, w, b, after.rows), now)
  {
    WFParts(db);
    hide WF, CanSave, Replaces, NodesOk, TreeOf, RowsFit, Rooted, FrequencyOk, ServedTree;
    RoundTrip(db, w, b, now, after);
  }
}
