/**
 What every reachable state of the word store satisfies: a forest with ordered children,
 references that stay inside their entry or point at what they name, and entries that
 validation would accept.
 */
module WordInvariant {
  import opened Basics
  import opened WordModel
  import opened WordTables
  import opened WordValidation
  import opened WordStore
  import opened WordRead
  import opened WordReplace

  /** A link to a sense names the word that owns it, and a link to a word shows its headword. */
  ghost predicate LinkOk(db: DB, link: Link) {
    && (link.sense.Some? ==> link.word.Some? && Root(db.rows, Key(Senses, link.sense.value)) == link.word)
    && (link.word.Some? ==> link.word.value in db.words && link.headword == db.words[link.word.value].headword)
  }

  ghost predicate LinksOk(db: DB) {
    forall k | k in db.rows && k.table.Rels? && db.rows[k].data.RelData? :: LinkOk(db, db.rows[k].data.target)
  }

  /** The group of a sense is a group of the same word. */
  predicate GroupRefOk(rows: Rows, k: Key)
    requires k in rows
  {
    rows[k].data.SenseData? && rows[k].data.group.Some? ==>
      var g, p := Key(Groups, rows[k].data.group.value), Key(Pos, rows[k].parent);
      g in rows && p in rows && rows[g].parent == rows[p].parent
  }

  /** The structure of a definition is a structure of the same pos. */
  predicate StructRefOk(rows: Rows, k: Key)
    requires k in rows
  {
    rows[k].data.DefData? && rows[k].data.structure.Some? ==>
      var g, s := Key(Structs, rows[k].data.structure.value), Key(Senses, rows[k].parent);
      g in rows && s in rows && rows[g].parent == rows[s].parent
  }

  ghost predicate RefsInside(rows: Rows) {
    && (forall k | k in rows && k.table.Senses? :: GroupRefOk(rows, k))
    && (forall k | k in rows && k.table.Defs? :: StructRefOk(rows, k))
  }

  ghost predicate AllListed(rows: Rows) {
    forall t, p :: Listed(rows, t, p)
  }

  ghost predicate EntriesValid(db: DB)
    requires RowsFit(db.rows)
  {
    forall w | w in db.words :: Valid(Echo(TreeOf(db, w)))
  }

  ghost predicate WF(db: DB) {
    && Rooted(db) && RowsFit(db.rows) && AllListed(db.rows)
    && LinksOk(db) && RefsInside(db.rows) && UniqueOk(db.rows)
    && EntriesValid(db)
  }

  // --- Roots and references ---

  lemma {:induction false} RootExists(db: DB, k: Key)
    requires Rooted(db) && k in db.rows
    ensures Root(db.rows, k).Some? && Root(db.rows, k).value in db.words
    decreases Depth(k.table)
  {
    if Top(k.table) {
    } else {
      RootExists(db, ParentKey(k.table, db.rows[k].parent));
    }
  }

  lemma RootOfChild(rows: Rows, k: Key)
    requires k in rows && !Top(k.table)
    ensures Root(rows, k) == Root(rows, ParentKey(k.table, rows[k].parent))
  {
  }

  lemma RootOfTop(rows: Rows, k: Key)
    requires k in rows && Top(k.table)
    ensures Root(rows, k) == Some(rows[k].parent)
  {
  }

  /** In-tree references never leave the entry. */
  lemma SenseGroupSameEntry(rows: Rows, k: Key)
    requires RefsInside(rows) && k in rows && k.table.Senses? && rows[k].data.SenseData? && rows[k].data.group.Some?
    ensures Root(rows, Key(Groups, rows[k].data.group.value)) == Root(rows, k)
  {
    assert GroupRefOk(rows, k);
    var g, p := Key(Groups, rows[k].data.group.value), Key(Pos, rows[k].parent);
    RootOfTop(rows, g);
    RootOfTop(rows, p);
    RootOfChild(rows, k);
  }

  lemma DefinitionStructSameEntry(rows: Rows, k: Key)
    requires RefsInside(rows) && k in rows && k.table.Defs? && rows[k].data.DefData? && rows[k].data.structure.Some?
    ensures Root(rows, Key(Structs, rows[k].data.structure.value)) == Root(rows, k)
  {
    assert StructRefOk(rows, k);
    var g, s := Key(Structs, rows[k].data.structure.value), Key(Senses, rows[k].parent);
    RootOfChild(rows, k);
    RootOfChild(rows, s);
    RootOfChild(rows, g);
  }

  lemma WFParts(db: DB)
    requires WF(db)
    ensures RowsFit(db.rows) && Rooted(db) && AllListed(db.rows) && LinksOk(db) && RefsInside(db.rows) && UniqueOk(db.rows)
  {
    hide Rooted, RowsFit, AllListed, LinksOk, RefsInside, UniqueOk, EntriesValid;
  }

  lemma EntryValid(db: DB, v: Id)
    requires WF(db) && v in db.words
    ensures RowsFit(db.rows) && Valid(Echo(TreeOf(db, v)))
  {
    hide Rooted, RowsFit, AllListed, LinksOk, RefsInside, UniqueOk, Valid, TreeOf;
  }

  lemma GroupRefIs(rows: Rows, k: Key, g: Id, p: Id)
    requires k in rows && rows[k].data.SenseData? && rows[k].data.group == Some(g) && rows[k].parent == p
    ensures GroupRefOk(rows, k) <==>
      Key(Groups, g) in rows && Key(Pos, p) in rows && rows[Key(Groups, g)].parent == rows[Key(Pos, p)].parent
  {
  }

  lemma StructRefIs(rows: Rows, k: Key, g: Id, s: Id)
    requires k in rows && rows[k].data.DefData? && rows[k].data.structure == Some(g) && rows[k].parent == s
    ensures StructRefOk(rows, k) <==>
      Key(Structs, g) in rows && Key(Senses, s) in rows && rows[Key(Structs, g)].parent == rows[Key(Senses, s)].parent
  {
  }

  lemma NoRef(rows: Rows, k: Key)
    requires k in rows
    ensures rows[k].data.SenseData? && rows[k].data.group.None? ==> GroupRefOk(rows, k)
    ensures rows[k].data.DefData? && rows[k].data.structure.None? ==> StructRefOk(rows, k)
  {
  }

  lemma RootAbove(rows: Rows, k: Key)
    requires k in rows
    ensures k.table.Senses? ==> Root(rows, k) == Root(rows, Key(Pos, rows[k].parent))
    ensures k.table.Defs? ==> Root(rows, k) == Root(rows, Key(Senses, rows[k].parent))
  {
  }

  lemma GroupsInside(rows: Rows, k: Key)
    requires RefsInside(rows) && k in rows && k.table.Senses?
    ensures GroupRefOk(rows, k)
  {
    hide GroupRefOk, StructRefOk;
  }

  lemma StructsInside(rows: Rows, k: Key)
    requires RefsInside(rows) && k in rows && k.table.Defs?
    ensures StructRefOk(rows, k)
  {
    hide GroupRefOk, StructRefOk;
  }
}
