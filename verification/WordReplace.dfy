/**
 What a tree save amounts to: the tree of the word is replaced by the body, rows keep their
 ids and audio, and nothing else changes but links to senses that are gone. Saves that cannot
 do this fail without effect.
 */
module WordReplace {
  import opened Basics
  import opened WordModel
  import opened WordTables
  import opened WordValidation
  import opened WordPositions
  import opened WordStore
  import opened WordRead
  import opened WordGloss
  import opened WordSave
  import opened WordPasses
  import opened WordBody

  function Incoming(b: SaveInput): set<Key> {
    KeySet(Doc(b))
  }

  /** The rows the body no longer carries. */
  function Gone(db: DB, w: Id, b: SaveInput): set<Key> {
    Owned(db.rows, w) - Incoming(b)
  }

  function UpdatedRoot(r: WordRow, b: SaveInput, now: Token): WordRow {
    r.(frequency := Nullable(b.frequency), mode := b.mode, dialects := b.dialects, token := now)
  }

  /** After the root update and the deletes. */
  function Cleared(db: DB, w: Id, b: SaveInput, now: Token): DB
    requires w in db.words
  {
    DeleteRows(db.(words := db.words[w := UpdatedRoot(db.words[w], b, now)]), Gone(db, w, b))
  }

  /** The deferred unique constraints of word_pos and word_grammar_structure_variants. */
  predicate UniqueOk(rows: Rows) {
    && (forall k, l | k in rows && l in rows :: SameTab(rows, k, l) ==> k == l)
    && (forall k, l | k in rows && l in rows :: SameVariant(rows, k, l) ==> k == l)
  }

  predicate SameTab(rows: Rows, k: Key, l: Key)
    requires k in rows && l in rows
  {
    k.table.Pos? && l.table.Pos? && rows[k].parent == rows[l].parent
    && rows[k].data.PosData? && rows[l].data.PosData? && rows[k].data.pos == rows[l].data.pos
  }

  predicate SameVariant(rows: Rows, k: Key, l: Key)
    requires k in rows && l in rows
  {
    k.table.Variants? && l.table.Variants? && rows[k].parent == rows[l].parent
    && rows[k].data.VariantData? && rows[l].data.VariantData?
    && rows[k].data.variantDialect == rows[l].data.variantDialect
  }

  // --- When a save goes through ---

  /** A kept id must not fall to a cascade of this save, a new one must not be taken. */
  predicate Placed(db: DB, w: Id, b: SaveInput, n: Node) {
    if KeyOf(n) in Owned(db.rows, w) then !Doomed(db.rows, Gone(db, w, b), KeyOf(n)) else KeyOf(n) !in db.rows
  }

  /** Once saved, does sense ts belong to word tw? The word's own senses are those of the body. */
  predicate LiveSense(db: DB, w: Id, b: SaveInput, tw: Id, ts: Id) {
    if tw == w then Key(Senses, ts) in Incoming(b) else Root(db.rows, Key(Senses, ts)) == Some(tw)
  }

  predicate TargetOk(db: DB, w: Id, b: SaveInput, n: Node)
    requires n.data.RelData?
  {
    var link := n.data.target;
    match link.word
    case None => KeyOf(n) in Owned(db.rows, w)
    case Some(tw) => tw in db.words && (link.sense.Some? ==> LiveSense(db, w, b, tw, link.sense.value))
  }

  ghost predicate CanSave(db: DB, w: Id, b: SaveInput) {
    && w in db.words && db.words[w].token == b.base
    && (forall n | n in Doc(b) :: Placed(db, w, b, n))
    && (forall n | n in Doc(b) && n.data.RelData? :: TargetOk(db, w, b, n))
  }

  /** The row and all it hangs off are in the body. */
  predicate LineKept(rows: Rows, b: SaveInput, k: Key)
    decreases Depth(k.table)
  {
    && k in Incoming(b)
    && (k in rows && !Top(k.table) ==> LineKept(rows, b, ParentKey(k.table, rows[k].parent)))
  }

  /** Where a relation may point. */
  predicate MayPoint(db: DB, w: Id, b: SaveInput, k: Key, link: Link) {
    match link.word
    case None => k in db.rows
    case Some(tw) => tw in db.words && match link.sense
      case None => true
      case Some(ts) => if tw == w then Key(Senses, ts) in Incoming(b) else Root(db.rows, Key(Senses, ts)) == Some(tw)
  }

  /** A node of the body fits the store: its id is free, or is the entry's with everything above it still in the body. */
  predicate NodeFitsIn(db: DB, w: Id, b: SaveInput, n: Node) {
    && (KeyOf(n) in db.rows ==> Root(db.rows, KeyOf(n)) == Some(w) && LineKept(db.rows, b, KeyOf(n)))
    && (n.data.RelData? ==> MayPoint(db, w, b, KeyOf(n), n.data.target))
  }

  lemma {:induction false} DoomedIsLost(db: DB, w: Id, b: SaveInput, k: Key)
    requires k in db.rows && Root(db.rows, k) == Some(w)
    ensures Doomed(db.rows, Gone(db, w, b), k) <==> !LineKept(db.rows, b, k)
    decreases Depth(k.table)
  {
    hide Doc;
    if Top(k.table) {
    } else {
      var p := ParentKey(k.table, db.rows[k].parent);
      assert p in db.rows;
      DoomedIsLost(db, w, b, p);
    }
  }

  lemma PlacedIs(db: DB, w: Id, b: SaveInput, n: Node)
    requires n in Doc(b)
    ensures Placed(db, w, b, n) && (n.data.RelData? ==> TargetOk(db, w, b, n)) <==> NodeFitsIn(db, w, b, n)
  {
    hide Doc, Doomed, LineKept, Gone, Incoming;
    if KeyOf(n) in db.rows && Root(db.rows, KeyOf(n)) == Some(w) {
      DoomedIsLost(db, w, b, KeyOf(n));
    }
    hide Root;
  }

  /** When a save goes through: the entry is there, the token is its own, and every node of the body fits. */
  lemma CanSaveExactly(db: DB, w: Id, b: SaveInput)
    ensures CanSave(db, w, b) <==>
      w in db.words && db.words[w].token == b.base && forall n | n in Doc(b) :: NodeFitsIn(db, w, b, n)
  {
    forall n | n in Doc(b)
      ensures Placed(db, w, b, n) && (n.data.RelData? ==> TargetOk(db, w, b, n)) <==> NodeFitsIn(db, w, b, n)
    {
      PlacedIs(db, w, b, n);
    }
    hide Doc, Placed, TargetOk, NodeFitsIn;
  }

  /** What each error of a save says. */
  ghost predicate Blames(db: DB, w: Id, b: SaveInput, e: SaveError) {
    match e
    case NotFound => w !in db.words
    case Stale => w in db.words && db.words[w].token != b.base
    case Moved => exists n | n in Doc(b) :: KeyOf(n) in Owned(db.rows, w) && !Placed(db, w, b, n)
    case IdConflict => exists n | n in Doc(b) :: KeyOf(n) in db.rows && KeyOf(n) !in Owned(db.rows, w)
    case NewOrphan => exists n | n in Doc(b) :: n.data.RelData? && n.data.target.word.None? && !TargetOk(db, w, b, n)
    case BadTarget => exists n | n in Doc(b) :: n.data.RelData? && n.data.target.word.Some? && !TargetOk(db, w, b, n)
    case Internal => false
  }

  // --- What a save that goes through leaves ---

  const NO_LINK := Link(None, None, "", "")

  function StoredTarget(rows: Rows, k: Key): Link {
    if k in rows && rows[k].data.RelData? then rows[k].data.target else NO_LINK
  }

  function HeadwordOf(db: DB, w: Id): string {
    if w in db.words then db.words[w].headword else ""
  }

  /** The target a relation is stored with; rows are those after the save. */
  ghost function SavedLink(db: DB, w: Id, b: SaveInput, rows: Rows, k: Key, link: Link): Link {
    match link.word
    case None => UnlinkedTarget(StoredTarget(db.rows, k), Gone(db, w, b), {})
    case Some(tw) =>
      var gloss :=
        if link.sense.Some? then GlossAt(rows, link.sense.value)
        else if k in Owned(db.rows, w) then StoredTarget(db.rows, k).gloss
        else "";
      Link(link.word, link.sense, HeadwordOf(db, tw), gloss)
  }

  function KeptAudio(db: DB, w: Id, k: Key): Audio {
    if k in Owned(db.rows, w) then db.rows[k].audio else SILENT
  }

  ghost function SavedData(db: DB, w: Id, b: SaveInput, rows: Rows, n: Node): Data {
    if n.data.RelData? then n.data.(target := SavedLink(db, w, b, rows, KeyOf(n), n.data.target)) else n.data
  }

  ghost function SavedRow(db: DB, w: Id, b: SaveInput, rows: Rows, n: Node): Row {
    Row(if Top(n.table) then w else n.parent, n.ord, SavedData(db, w, b, rows, n), KeptAudio(db, w, KeyOf(n)))
  }

  ghost predicate BodyStored(db: DB, w: Id, b: SaveInput, rows: Rows) {
    forall n | n in Doc(b) :: KeyOf(n) in rows && rows[KeyOf(n)] == SavedRow(db, w, b, rows, n)
  }

  ghost predicate OthersKept(db: DB, w: Id, b: SaveInput, rows: Rows) {
    && (forall k | k in db.rows && k !in Owned(db.rows, w) :: k in rows)
    && (forall k | k in rows && k !in Incoming(b) ::
      && k in db.rows && k !in Owned(db.rows, w)
      && rows[k] == db.rows[k].(data := Unlinked(db.rows[k].data, Gone(db, w, b), {})))
  }

  ghost predicate Replaces(db: DB, w: Id, b: SaveInput, now: Token, after: DB) {
    && w in db.words
    && after.words == db.words[w := UpdatedRoot(db.words[w], b, now)]
    && BodyStored(db, w, b, after.rows)
    && OthersKept(db, w, b, after.rows)
  }

  // --- The deletes ---

  lemma UnlinkedFits(t: Table, d: Data, dead: set<Key>, ws: set<Id>)
    ensures Fits(t, Unlinked(d, dead, ws)) <==> Fits(t, d)
  {
  }

  lemma ClearedState(db: DB, w: Id, b: SaveInput, now: Token)
    requires w in db.words && RowsFit(db.rows)
    ensures var tx := Cleared(db, w, b, now);
      && Safe(tx, w, Owned(db.rows, w)) && RowsFit(tx.rows)
      && tx.words == db.words[w := UpdatedRoot(db.words[w], b, now)]
  {
    hide Unlinked, Fits, Doc, Doomed;
    var tx := Cleared(db, w, b, now);
    forall k | k in tx.rows ensures Fits(k.table, tx.rows[k].data) {
      UnlinkedFits(k.table, db.rows[k].data, Dead(db.rows, Gone(db, w, b)), {});
    }
  }

  lemma PlacedExpected(db: DB, w: Id, b: SaveInput, now: Token, n: Node)
    requires w in db.words
    ensures Placed(db, w, b, n) <==> AsExpected(Owned(db.rows, w), Cleared(db, w, b, now).rows, n)
  {
    hide Unlinked, Doc, Doomed;
    var k := KeyOf(n);
    if k in db.rows && k !in Owned(db.rows, w) && Doomed(db.rows, Gone(db, w, b), k) {
      DoomedSameRoot(db.rows, Gone(db, w, b), w, k);
      assert false;
    }
  }

  /** When every node is in place, the cascades delete nothing more. */
  lemma DeadIsGone(db: DB, w: Id, b: SaveInput)
    requires forall n | n in Doc(b) :: Placed(db, w, b, n)
    ensures Dead(db.rows, Gone(db, w, b)) == Gone(db, w, b)
  {
    hide Doc, Doomed;
    var gone := Gone(db, w, b);
    forall n | n in Doc(b) && KeyOf(n) in Owned(db.rows, w) ensures !Doomed(db.rows, gone, KeyOf(n)) {
      assert Placed(db, w, b, n);
    }
    forall k | k in db.rows && Doomed(db.rows, gone, k) ensures k in gone {
      DoomedSameRoot(db.rows, gone, w, k);
    }
    forall k | k in gone ensures Doomed(db.rows, gone, k) {
      GoneDoomed(db.rows, gone, k);
    }
  }

  lemma GoneDoomed(rows: Rows, s: set<Key>, k: Key)
    requires k in rows && k in s
    ensures Doomed(rows, s, k)
  {
  }

  // --- Who owns what afterwards ---

  /** Rows made of one word's own (mine) and of rows that other words had before. */
  ghost predicate Split(db: DB, w: Id, rows: Rows, mine: set<Key>) {
    && (forall k | k in mine :: k in rows && (k in db.rows ==> k in Owned(db.rows, w)))
    && (forall k | k in mine ::
      if Top(k.table) then rows[k].parent == w else ParentKey(k.table, rows[k].parent) in mine)
    && (forall k | k in rows && k !in mine ::
      k in db.rows && k !in Owned(db.rows, w) && rows[k].parent == db.rows[k].parent)
    && (forall k | k in rows && k !in mine && !Top(k.table) :: ParentKey(k.table, rows[k].parent) in rows)
  }

  lemma {:induction false} SplitRoot(db: DB, w: Id, rows: Rows, mine: set<Key>, k: Key)
    requires Rooted(db) && Split(db, w, rows, mine) && k in rows
    ensures k in mine ==> Root(rows, k) == Some(w)
    ensures k !in mine ==> Root(rows, k) == Root(db.rows, k) && Root(rows, k).Some? && Root(rows, k) != Some(w)
    decreases Depth(k.table)
  {
    if Top(k.table) {
    } else {
      SplitRoot(db, w, rows, mine, ParentKey(k.table, rows[k].parent));
    }
  }

  /** A child of a body node is in the body; a parent's row comes before. */
  lemma ParentInBody(b: SaveInput, n: Node)
    requires NodesOk(b) && n in Doc(b) && !Top(n.table)
    ensures ParentKey(n.table, n.parent) in Incoming(b)
    ensures !n.table.Rels? ==> ParentKey(n.table, n.parent) in KeySet(FirstPass(b))
  {
    IdsOkOf(b);
    FirstPassClosed(b);
    hide NodesOk, IdsOk, Doc, FirstPass;
    PassByTable(b, n);
    if n.table.Rels? {
      RelationNode(b, n);
    } else {
      ClosedParent(FirstPass(b), n);
    }
    var m :| m in FirstPass(b) && KeyOf(m) == ParentKey(n.table, n.parent);
    InPasses(b, m);
    InKeySet(Doc(b), m);
  }

  lemma {:induction false} ClosedParent(ns: seq<Node>, n: Node)
    requires Closed({}, ns) && n in ns && !Top(n.table)
    ensures ParentKey(n.table, n.parent) in KeySet(ns)
  {
    var init, last := ns[..|ns| - 1], ns[|ns| - 1];
    assert ns == init + [last];
    KeySetConcat(init, [last]);
    if n in init {
      ClosedParent(init, n);
    }
  }

  lemma ReplacedSplit(db: DB, w: Id, b: SaveInput, rows: Rows)
    requires Rooted(db) && NodesOk(b)
    requires BodyStored(db, w, b, rows) && OthersKept(db, w, b, rows)
    requires forall n | n in Doc(b) :: Placed(db, w, b, n)
    ensures Split(db, w, rows, Incoming(b))
  {
    hide NodesOk, Doc, Doomed, Unlinked, SavedData, Owned;
    var mine := Incoming(b);
    forall k | k in mine
      ensures k in rows && (k in db.rows ==> k in Owned(db.rows, w))
      ensures if Top(k.table) then rows[k].parent == w else ParentKey(k.table, rows[k].parent) in mine
    {
      var n :| n in Doc(b) && KeyOf(n) == k;
      assert Placed(db, w, b, n);
      if !Top(k.table) {
        ParentInBody(b, n);
      }
    }
    forall k | k in rows && k !in mine && !Top(k.table) ensures ParentKey(k.table, rows[k].parent) in rows {
      ForeignParent(db, w, k);
    }
  }

  lemma ForeignParent(db: DB, w: Id, k: Key)
    requires Rooted(db) && k in db.rows && !Top(k.table)
    ensures var p := ParentKey(k.table, db.rows[k].parent);
      p in db.rows && (p in Owned(db.rows, w) <==> k in Owned(db.rows, w))
  {
  }
}
