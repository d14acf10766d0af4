/**
 Rows under a word, and the foreign-key actions of a DELETE: ON DELETE CASCADE along
 the parent columns and ON DELETE SET NULL on the cross references
 (internal/platform/database/migrations/000018_create_words.up.sql).
 */
module WordStore {
  import opened Basics
  import opened WordModel
  import opened WordTables

  function ParentKey(t: Table, parent: Id): Key
    requires !Top(t)
  {
    Key(ParentTable(t), parent)
  }

  /** The word a row hangs off, through its parents: what the joins of the scope queries compute. */
  function Root(rows: Rows, k: Key): Option<Id>
    decreases Depth(k.table)
  {
    if k !in rows then None
    else if Top(k.table) then Some(rows[k].parent)
    else Root(rows, ParentKey(k.table, rows[k].parent))
  }

  /** No row without its parent. */
  ghost predicate Rooted(db: DB) {
    forall k | k in db.rows ::
      if Top(k.table) then db.rows[k].parent in db.words else ParentKey(k.table, db.rows[k].parent) in db.rows
  }

  function Owned(rows: Rows, w: Id): set<Key> {
    set k | k in rows && Root(rows, k) == Some(w)
  }

  /** Is row k deleted when the rows in s are, directly or by cascade? */
  predicate Doomed(rows: Rows, s: set<Key>, k: Key)
    decreases Depth(k.table)
  {
    k in rows && (k in s || (!Top(k.table) && Doomed(rows, s, ParentKey(k.table, rows[k].parent))))
  }

  function Dead(rows: Rows, s: set<Key>): set<Key> {
    set k | k in rows && Doomed(rows, s, k)
  }

  function Dropped(t: Table, ref: Option<Id>, dead: set<Key>): Option<Id> {
    if ref.Some? && Key(t, ref.value) in dead then None else ref
  }

  /** The snapshots stay. */
  function UnlinkedTarget(link: Link, dead: set<Key>, words: set<Id>): Link {
    link.(word := if link.word.Some? && link.word.value in words then None else link.word,
          sense := Dropped(Senses, link.sense, dead))
  }

  /** The SET NULL columns, once the given rows and words are gone. */
  function Unlinked(d: Data, dead: set<Key>, words: set<Id>): Data {
    match d
    case SenseData(_, _, g, _, _) => d.(group := Dropped(Groups, g, dead))
    case DefData(_, _, _, s) => d.(structure := Dropped(Structs, s, dead))
    case RelData(_, link, _) => d.(target := UnlinkedTarget(link, dead, words))
    case _ => d
  }

  function Survivors(rows: Rows, dead: set<Key>, words: set<Id>): Rows {
    map k | k in rows && k !in dead :: rows[k].(data := Unlinked(rows[k].data, dead, words))
  }

  /** DELETE FROM a child table. */
  function DeleteRows(db: DB, s: set<Key>): DB {
    DB(db.words, Survivors(db.rows, Dead(db.rows, s), {}))
  }

  function Under(rows: Rows, ws: set<Id>): set<Key> {
    set k | k in rows && Root(rows, k).Some? && Root(rows, k).value in ws
  }

  /** DELETE FROM words. */
  function DeleteWords(db: DB, ws: set<Id>): DB {
    DB(db.words - ws, Survivors(db.rows, Under(db.rows, ws), ws))
  }

  // --- Two deletes make one ---

  lemma UnlinkedTwice(d: Data, a: set<Key>, b: set<Key>)
    ensures Unlinked(Unlinked(d, a, {}), b, {}) == Unlinked(d, a + b, {})
  {
  }

  /** What survives a delete keeps its ancestors. */
  lemma {:induction false} DoomedAfter(rows: Rows, a: set<Key>, b: set<Key>, k: Key)
    requires k in rows && !Doomed(rows, a, k)
    ensures Doomed(Survivors(rows, Dead(rows, a), {}), b, k) <==> Doomed(rows, a + b, k)
    decreases Depth(k.table)
  {
    if Top(k.table) {
    } else {
      var p := ParentKey(k.table, rows[k].parent);
      if p in rows {
        DoomedAfter(rows, a, b, p);
      }
    }
  }

  lemma {:induction false} DoomedMore(rows: Rows, a: set<Key>, b: set<Key>, k: Key)
    requires a <= b && Doomed(rows, a, k)
    ensures Doomed(rows, b, k)
    decreases Depth(k.table)
  {
    if k in a {
    } else {
      DoomedMore(rows, a, b, ParentKey(k.table, rows[k].parent));
    }
  }

  lemma DeleteTwice(db: DB, a: set<Key>, b: set<Key>)
    ensures DeleteRows(DeleteRows(db, a), b) == DeleteRows(db, a + b)
  {
    var rows := db.rows;
    var mid := Survivors(rows, Dead(rows, a), {});
    forall k | k in rows ensures k in Dead(rows, a + b) <==> k in Dead(rows, a) || k in Dead(mid, b) {
      if k in Dead(rows, a) {
        DoomedMore(rows, a, a + b, k);
      } else {
        DoomedAfter(rows, a, b, k);
      }
    }
    assert Dead(rows, a + b) == Dead(rows, a) + Dead(mid, b);
    forall k | k in rows && k !in Dead(rows, a + b)
      ensures DeleteRows(DeleteRows(db, a), b).rows[k] == DeleteRows(db, a + b).rows[k]
    {
      UnlinkedTwice(rows[k].data, Dead(rows, a), Dead(mid, b));
    }
  }

  lemma DeleteNothing(db: DB)
    ensures DeleteRows(db, {}) == db
  {
    forall k | k in db.rows ensures !Doomed(db.rows, {}, k) {
      NotDoomed(db.rows, k);
    }
    assert Dead(db.rows, {}) == {};
  }

  lemma {:induction false} NotDoomed(rows: Rows, k: Key)
    ensures !Doomed(rows, {}, k)
    decreases Depth(k.table)
  {
    if k in rows && !Top(k.table) {
      NotDoomed(rows, ParentKey(k.table, rows[k].parent));
    }
  }

  /** A cascade stays inside the word it starts in. */
  lemma {:induction false} DoomedSameRoot(rows: Rows, s: set<Key>, w: Id, k: Key)
    requires s <= Owned(rows, w) && Doomed(rows, s, k)
    ensures Root(rows, k) == Some(w)
    decreases Depth(k.table)
  {
    if k in s {
    } else {
      DoomedSameRoot(rows, s, w, ParentKey(k.table, rows[k].parent));
    }
  }
}
