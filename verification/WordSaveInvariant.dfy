/** Saving a valid body keeps the store well-formed, and leaves every other entry alone. */
module WordSaveInvariant {
  import opened Basics
  import opened WordModel
  import opened WordTables
  import opened WordValidation
  import opened WordPositions
  import opened WordStore
  import opened WordRead
  import opened WordGloss
  import opened WordAlike
  import opened WordSave
  import opened WordBody
  import opened WordReplace
  import opened WordKids
  import opened WordRoundTrip
  import opened WordInvariant
  import opened WordFrame

  ghost predicate Saving(db: DB, w: Id, b: SaveInput, now: Token, after: DB) {
    WF(db) && Valid(b) && CanSave(db, w, b) && Replaces(db, w, b, now, after) && now != ZERO_TIME
  }

  lemma ReplacedStored(db: DB, w: Id, b: SaveInput, now: Token, after: DB)
    requires Rooted(db) && NodesOk(b) && CanSave(db, w, b) && Replaces(db, w, b, now, after)
    ensures Stored(db, w, b, after.rows)
  {
    hide NodesOk, Doc, Rooted, BodyStored, OthersKept, Placed, TargetOk;
    ReplacedSplit(db, w, b, after.rows);
  }

  lemma SavingStored(db: DB, w: Id, b: SaveInput, now: Token, after: DB)
    requires Saving(db, w, b, now, after)
    ensures Stored(db, w, b, after.rows)
  {
    hide NodesOk, CanSave, Replaces, Rooted, RowsFit, AllListed, LinksOk, RefsInside, UniqueOk, EntriesValid, Stored;
    ReplacedStored(db, w, b, now, after);
  }

  /** A node's row, when its key is in the body. */
  lemma StoredNode(db: DB, w: Id, b: SaveInput, rows: Rows, k: Key) returns (n: Node)
    requires Stored(db, w, b, rows) && k in Incoming(b)
    ensures n in Doc(b) && KeyOf(n) == k && k in rows && rows[k] == SavedRow(db, w, b, rows, n)
    ensures Fits(n.table, n.data)
  {
    hide NodesOk, Doc, Rooted, OthersKept, Split, SavedRow;
    n :| n in Doc(b) && KeyOf(n) == k;
    NodeFits(b, n);
  }

  lemma StoredFits(db: DB, w: Id, b: SaveInput, rows: Rows)
    requires Stored(db, w, b, rows) && RowsFit(db.rows)
    ensures RowsFit(rows)
  {
    hide Unlinked, Fits, NodesOk, Doc, Owned, Rooted, BodyStored, Split;
    forall k | k in rows ensures Fits(k.table, rows[k].data) {
      if k in Incoming(b) {
        var n := StoredNode(db, w, b, rows, k);
        SavedFits(db, w, b, rows, n);
      } else {
        UnlinkedFits(k.table, db.rows[k].data, Gone(db, w, b), {});
      }
    }
  }

  lemma SavedFits(db: DB, w: Id, b: SaveInput, rows: Rows, n: Node)
    requires Fits(n.table, n.data)
    ensures Fits(n.table, SavedRow(db, w, b, rows, n).data)
  {
    hide SavedLink, Gone, KeptAudio;
  }

  lemma StoredRooted(db: DB, w: Id, b: SaveInput, now: Token, after: DB)
    requires Stored(db, w, b, after.rows) && Replaces(db, w, b, now, after)
    ensures Rooted(after)
  {
    hide NodesOk, Doc, BodyStored, OthersKept, Owned, UpdatedRoot;
    forall k | k in after.rows
      ensures if Top(k.table) then after.rows[k].parent in after.words else ParentKey(k.table, after.rows[k].parent) in after.rows
    {
      if k in Incoming(b) && !Top(k.table) {
        SplitHas(db, w, after.rows, Incoming(b), ParentKey(k.table, after.rows[k].parent));
      }
    }
  }

  // --- Ordered children ---

  lemma BodyListed(db: DB, w: Id, b: SaveInput, rows: Rows, t: Table, p: Id, ids: seq<Id>)
    requires Stored(db, w, b, rows) && BodyParent(b, w, t, p) && Lists(b, w, t, p, ids)
    ensures Listed(rows, t, p)
  {
    hide Stored, BodyParent, Lists, IsKids;
    BodyKids(db, w, b, rows, t, p, ids);
  }

  /** The body lists the children of each of its parents. */
  lemma SomeList(b: SaveInput, w: Id, t: Table, p: Id) returns (ids: seq<Id>)
    requires NodesOk(b) && BodyParent(b, w, t, p)
    ensures Lists(b, w, t, p, ids)
  {
    IdsOkOf(b);
    hide NodesOk, Doc, IdsOk, Lists, BodyParent;
    match t {
      case Groups =>
        TopParent(b, w, t, p);
        GroupList(b, w);
        ids := Map(b.groups, GroupId);
      case Pos =>
        TopParent(b, w, t, p);
        TabList(b, w);
        ids := Map(b.pos, PosId);
      case Forms =>
        var i := ParentTab(b, w, t, p);
        FormList(b, w, i);
        ids := Map(b.pos[i].forms, FormId);
      case Structs =>
        var i := ParentTab(b, w, t, p);
        StructList(b, w, i);
        ids := Map(b.pos[i].structures, StructId);
      case Senses =>
        var i := ParentTab(b, w, t, p);
        SenseList(b, w, i);
        ids := Map(b.pos[i].senses, SenseId);
      case Prons =>
        var i, k := ParentForm(b, w, p);
        PronList(b, w, i, k);
        ids := Map(b.pos[i].forms[k].pronunciations, PronId);
      case Variants =>
        var i, k := ParentStruct(b, w, p);
        VariantList(b, w, i, k);
        ids := Map(b.pos[i].structures[k].variants, VariantId);
      case Defs =>
        var i, k := ParentSense(b, w, t, p);
        DefList(b, w, i, k);
        ids := Map(b.pos[i].senses[k].definitions, DefId);
      case Sents =>
        var i, k := ParentSense(b, w, t, p);
        SentList(b, w, i, k);
        ids := Map(b.pos[i].senses[k].sentences, SentId);
      case Rels =>
        var i, k := ParentSense(b, w, t, p);
        RelList(b, w, i, k);
        ids := Map(b.pos[i].senses[k].relations, RelId);
    }
  }

  lemma TopParent(b: SaveInput, w: Id, t: Table, p: Id)
    requires BodyParent(b, w, t, p) && Top(t)
    ensures p == w
  {
  }

  lemma ParentTab(b: SaveInput, w: Id, t: Table, p: Id) returns (i: nat)
    requires BodyParent(b, w, t, p) && (t.Forms? || t.Structs? || t.Senses?)
    ensures i < |b.pos| && b.pos[i].id == p
  {
    hide Doc;
    var n :| n in Doc(b) && KeyOf(n) == Key(Pos, p);
    i := LocatePos(b, n);
  }

  lemma ParentForm(b: SaveInput, w: Id, p: Id) returns (i: nat, k: nat)
    requires BodyParent(b, w, Prons, p)
    ensures i < |b.pos| && k < |b.pos[i].forms| && b.pos[i].forms[k].id == p
  {
    hide Doc;
    var n :| n in Doc(b) && KeyOf(n) == Key(Forms, p);
    i, k := InFormAt(b, n);
  }

  lemma ParentStruct(b: SaveInput, w: Id, p: Id) returns (i: nat, k: nat)
    requires BodyParent(b, w, Variants, p)
    ensures i < |b.pos| && k < |b.pos[i].structures| && b.pos[i].structures[k].id == p
  {
    hide Doc;
    var n :| n in Doc(b) && KeyOf(n) == Key(Structs, p);
    i, k := InStructAt(b, n);
  }

  lemma ParentSense(b: SaveInput, w: Id, t: Table, p: Id) returns (i: nat, k: nat)
    requires BodyParent(b, w, t, p) && (t.Defs? || t.Sents? || t.Rels?)
    ensures i < |b.pos| && k < |b.pos[i].senses| && b.pos[i].senses[k].id == p
  {
    hide Doc;
    var n :| n in Doc(b) && KeyOf(n) == Key(Senses, p);
    i, k := InSenseAt(b, n);
  }

  lemma ForeignListed(db: DB, w: Id, b: SaveInput, rows: Rows, t: Table, p: Id)
    requires Stored(db, w, b, rows) && ForeignParentOf(db, w, t, p) && Listed(db.rows, t, p)
    ensures Listed(rows, t, p)
  {
    hide Stored, IsKids, SameKids, ForeignParentOf;
    ForeignKids(db, w, b, rows, t, p);
    var ids :| IsKids(db.rows, t, p, ids);
    IsKidsSame(db.rows, rows, t, p, ids);
  }

  lemma NoParentListed(rows: Rows, t: Table, p: Id)
    requires forall k | k in rows && k.table == t :: rows[k].parent != p
    ensures Listed(rows, t, p)
  {
    assert IsKids(rows, t, p, []);
  }

  lemma StoredListed(db: DB, w: Id, b: SaveInput, rows: Rows)
    requires Stored(db, w, b, rows) && AllListed(db.rows)
    ensures AllListed(rows)
  {
    forall t, p ensures Listed(rows, t, p) {
      hide Stored, IsKids, BodyParent, ForeignParentOf, Lists, Listed;
      if BodyParent(b, w, t, p) {
        StoredNodes(db, w, b, rows);
        var ids := SomeList(b, w, t, p);
        BodyListed(db, w, b, rows, t, p, ids);
      } else if ForeignParentOf(db, w, t, p) {
        ForeignListed(db, w, b, rows, t, p);
      } else {
        NobodysChild(db, w, b, rows, t, p);
        NoParentListed(rows, t, p);
      }
    }
  }

  lemma StoredNodes(db: DB, w: Id, b: SaveInput, rows: Rows)
    requires Stored(db, w, b, rows)
    ensures NodesOk(b)
  {
  }

  lemma NobodysChild(db: DB, w: Id, b: SaveInput, rows: Rows, t: Table, p: Id)
    requires Stored(db, w, b, rows) && !BodyParent(b, w, t, p) && !ForeignParentOf(db, w, t, p)
    ensures forall k | k in rows && k.table == t :: rows[k].parent != p
  {
    hide NodesOk, Doc, BodyStored, OthersKept, Owned, Rooted;
  }

  // --- Other entries ---

  lemma SavingCarries(db: DB, w: Id, b: SaveInput, now: Token, after: DB, v: Id)
    requires Stored(db, w, b, after.rows) && Replaces(db, w, b, now, after) && v in db.words && v != w
    ensures Carries(db, Lost(Gone(db, w, b), {}), v, after)
  {
    hide NodesOk, Doc, BodyStored, Rooted, SameKids, Unlinked;
    forall t, p | Mine(db.rows, v, t, p) ensures SameKids(db.rows, after.rows, t, p) {
      ForeignKids(db, w, b, after.rows, t, p);
    }
  }

  // --- Links ---

  lemma StoredRoot(db: DB, w: Id, b: SaveInput, rows: Rows, k: Key)
    requires Stored(db, w, b, rows)
    ensures k in Incoming(b) ==> Root(rows, k) == Some(w)
    ensures k !in Incoming(b) && Root(db.rows, k) != Some(w) ==> Root(rows, k) == Root(db.rows, k)
  {
    hide NodesOk, Doc, Unlinked, BodyStored, Root;
    if k in Incoming(b) {
      SplitHas(db, w, rows, Incoming(b), k);
    }
    if k in rows {
      SplitRoot(db, w, rows, Incoming(b), k);
    } else {
      NoRoot(rows, k);
      if k in db.rows {
        OwnedRoot(db.rows, w, k);
      } else {
        NoRoot(db.rows, k);
      }
    }
  }

  lemma NoRoot(rows: Rows, k: Key)
    requires k !in rows
    ensures Root(rows, k) == None
  {
  }

  lemma OwnedRoot(rows: Rows, w: Id, k: Key)
    ensures k in Owned(rows, w) <==> Root(rows, k) == Some(w)
  {
  }

  lemma LiveSenseRoot(db: DB, w: Id, b: SaveInput, rows: Rows, tw: Id, ts: Id)
    requires Stored(db, w, b, rows) && LiveSense(db, w, b, tw, ts)
    ensures Root(rows, Key(Senses, ts)) == Some(tw)
  {
    var k := Key(Senses, ts);
    StoredRoot(db, w, b, rows, k);
    hide NodesOk, Doc, BodyStored, OthersKept, Rooted, Root;
    OwnedRoot(db.rows, w, k);
    if k in Incoming(b) && tw != w {
      SplitHas(db, w, rows, Incoming(b), k);
      if k !in db.rows {
        NoRoot(db.rows, k);
      }
    }
  }

  lemma KeptLinkOk(db: DB, w: Id, b: SaveInput, now: Token, after: DB, link: Link)
    requires Stored(db, w, b, after.rows) && Replaces(db, w, b, now, after) && LinkOk(db, link)
    ensures LinkOk(after, UnlinkedTarget(link, Gone(db, w, b), {}))
  {
    if link.sense.Some? {
      var k := Key(Senses, link.sense.value);
      hide Stored, BodyStored, OthersKept, Root, Doc;
      StoredRoot(db, w, b, after.rows, k);
      OwnedRoot(db.rows, w, k);
    }
  }

  lemma SavedLinkOk(db: DB, w: Id, b: SaveInput, now: Token, after: DB, n: Node)
    requires Stored(db, w, b, after.rows) && Replaces(db, w, b, now, after) && LinksOk(db)
    requires n in Doc(b) && n.data.RelData? && TargetOk(db, w, b, n)
    ensures LinkOk(after, SavedLink(db, w, b, after.rows, KeyOf(n), n.data.target))
  {
    hide Stored, BodyStored, OthersKept, Root, Doc, LiveSense, Owned, Gone, LinksOk, GlossAt, StoredTarget, LinkOk;
    var link, k := n.data.target, KeyOf(n);
    NodeFits(b, n);
    if link.word.None? {
      StoredLinkOk(db, k);
      KeptLinkOk(db, w, b, now, after, StoredTarget(db.rows, k));
    } else {
      if link.sense.Some? {
        LiveSenseRoot(db, w, b, after.rows, link.word.value, link.sense.value);
      }
      FreshLinkOk(after, SavedLink(db, w, b, after.rows, k, link));
    }
  }

  lemma StoredLinkOk(db: DB, k: Key)
    requires LinksOk(db) && k.table.Rels?
    ensures LinkOk(db, StoredTarget(db.rows, k))
  {
    NoLinkOk(db);
    hide LinkOk;
  }

  lemma FreshLinkOk(db: DB, link: Link)
    requires link.word.Some? && link.word.value in db.words && link.headword == db.words[link.word.value].headword
    requires link.sense.Some? ==> Root(db.rows, Key(Senses, link.sense.value)) == link.word
    ensures LinkOk(db, link)
  {
  }

  lemma NoLinkOk(db: DB)
    ensures LinkOk(db, NO_LINK)
  {
  }

  lemma BodyLink(db: DB, w: Id, b: SaveInput, now: Token, after: DB, k: Key)
    requires Stored(db, w, b, after.rows) && Replaces(db, w, b, now, after) && LinksOk(db) && CanSave(db, w, b)
    requires k in Incoming(b) && k.table.Rels?
    ensures k in after.rows && after.rows[k].data.RelData? && LinkOk(after, after.rows[k].data.target)
  {
    hide NodesOk, Doc, Stored, Replaces, LinksOk, LinkOk, TargetOk, Placed, SavedLink, Incoming, KeptAudio;
    var n := StoredNode(db, w, b, after.rows, k);
    SavedLinkOk(db, w, b, now, after, n);
  }

  lemma ForeignRow(db: DB, w: Id, b: SaveInput, rows: Rows, k: Key)
    requires Stored(db, w, b, rows) && k in rows && k !in Incoming(b)
    ensures k in db.rows && Root(db.rows, k) != Some(w) && k !in Owned(db.rows, w)
    ensures rows[k] == db.rows[k].(data := Unlinked(db.rows[k].data, Gone(db, w, b), {}))
  {
    hide NodesOk, Doc, BodyStored, Split, Rooted, Unlinked, Incoming;
  }

  lemma ForeignLink(db: DB, w: Id, b: SaveInput, now: Token, after: DB, k: Key)
    requires Stored(db, w, b, after.rows) && Replaces(db, w, b, now, after) && LinksOk(db)
    requires k in after.rows && k !in Incoming(b) && k.table.Rels? && after.rows[k].data.RelData?
    ensures LinkOk(after, after.rows[k].data.target)
  {
    hide NodesOk, Doc, Stored, Replaces, LinkOk, Incoming, Gone, UnlinkedTarget, Owned;
    ForeignRow(db, w, b, after.rows, k);
    KeptLinkOk(db, w, b, now, after, db.rows[k].data.target);
  }

  lemma SavingLinks(db: DB, w: Id, b: SaveInput, now: Token, after: DB)
    requires Stored(db, w, b, after.rows) && Replaces(db, w, b, now, after) && LinksOk(db) && CanSave(db, w, b)
    ensures LinksOk(after)
  {
    forall k | k in after.rows && k.table.Rels? && after.rows[k].data.RelData?
      ensures LinkOk(after, after.rows[k].data.target)
    {
      hide LinkOk, Stored, Replaces, CanSave, LinksOk, Incoming;
      if k in Incoming(b) {
        BodyLink(db, w, b, now, after, k);
      } else {
        ForeignLink(db, w, b, now, after, k);
      }
    }
  }

  // --- References inside the entry ---

  lemma {:induction false} ClosedNeeds(ns: seq<Node>, n: Node)
    requires Closed({}, ns) && n in ns
    ensures Needs(n) <= KeySet(ns)
  {
    var init, last := ns[..|ns| - 1], ns[|ns| - 1];
    assert ns == init + [last];
    KeySetConcat(init, [last]);
    if n in init {
      ClosedNeeds(init, n);
    }
  }

  lemma NeedsInBody(b: SaveInput, n: Node)
    requires NodesOk(b) && n in Doc(b) && !n.table.Rels?
    ensures Needs(n) <= Incoming(b)
  {
    IdsOkOf(b);
    FirstPassClosed(b);
    hide NodesOk, IdsOk, Doc, FirstPass, Needs;
    PassByTable(b, n);
    ClosedNeeds(FirstPass(b), n);
    forall k | k in KeySet(FirstPass(b)) ensures k in Incoming(b) {
      var m :| m in FirstPass(b) && KeyOf(m) == k;
      InPasses(b, m);
      InKeySet(Doc(b), m);
    }
  }

  lemma BodyTop(db: DB, w: Id, b: SaveInput, rows: Rows, k: Key)
    requires Stored(db, w, b, rows) && k in Incoming(b) && (k.table.Groups? || k.table.Pos?)
    ensures k in rows && rows[k].parent == w
  {
    hide NodesOk, Doc, BodyStored, OthersKept, Rooted, Incoming;
  }

  /** Below the top and outside relations, a row holds what its node says. */
  lemma StaticNode(db: DB, w: Id, b: SaveInput, rows: Rows, k: Key) returns (n: Node)
    requires Stored(db, w, b, rows) && k in Incoming(b) && (k.table.Senses? || k.table.Defs?)
    ensures n in Doc(b) && n.table == k.table && k in rows && rows[k].data == n.data && rows[k].parent == n.parent
    ensures (k.table.Senses? ==> n.data.SenseData?) && (k.table.Defs? ==> n.data.DefData?)
  {
    hide NodesOk, Doc, Stored, Incoming, KeptAudio, SavedLink;
    n := StoredNode(db, w, b, rows, k);
  }

  lemma NeedsGroup(n: Node)
    requires n.table.Senses? && n.data.SenseData? && n.data.group.Some?
    ensures Key(Groups, n.data.group.value) in Needs(n)
  {
  }

  lemma NeedsParent(n: Node)
    requires n.table.Senses?
    ensures Key(Pos, n.parent) in Needs(n)
  {
  }

  lemma BodyGroupRef(db: DB, w: Id, b: SaveInput, rows: Rows, k: Key)
    requires Stored(db, w, b, rows) && k in Incoming(b) && k.table.Senses?
    ensures k in rows && GroupRefOk(rows, k)
  {
    StoredNodes(db, w, b, rows);
    hide *;
    var n := StaticNode(db, w, b, rows, k);
    NoRef(rows, k);
    NeedsInBody(b, n);
    NeedsParent(n);
    BodyTop(db, w, b, rows, Key(Pos, n.parent));
    if n.data.group.Some? {
      NeedsGroup(n);
      BodyTop(db, w, b, rows, Key(Groups, n.data.group.value));
      GroupRefIs(rows, k, n.data.group.value, n.parent);
    }
  }

  /** The structure a definition names is in its own tab. */
  lemma StructOfDef(b: SaveInput, n: Node) returns (p: nat, i: nat, j: nat)
    requires NodesOk(b) && n in Doc(b) && n.table.Defs? && n.data.DefData? && n.data.structure.Some?
    ensures p < |b.pos| && i < |b.pos[p].senses| && b.pos[p].senses[i].id == n.parent
    ensures j < |b.pos[p].structures| && b.pos[p].structures[j].id == n.data.structure.value
  {
    hide NodesOk, Doc, StoredText;
    p, i := InSenseAt(b, n);
    var s := b.pos[p].senses[i];
    var k: nat :| k < |s.definitions| && n == DefN(s.id, k, s.definitions[k]);
    DefinitionsOk(b, p, i, k);
    var gs := b.pos[p].structures;
    InKeys(gs, |gs|, StructId, n.data.structure.value);
    j :| j < |gs| && StructId(gs[j]) == n.data.structure.value;
  }

  lemma BodyStructRef(db: DB, w: Id, b: SaveInput, rows: Rows, k: Key)
    requires Stored(db, w, b, rows) && k in Incoming(b) && k.table.Defs?
    ensures k in rows && StructRefOk(rows, k)
  {
    StoredNodes(db, w, b, rows);
    hide *;
    var n := StaticNode(db, w, b, rows, k);
    NoRef(rows, k);
    if n.data.structure.Some? {
      var p, i, j := StructOfDef(b, n);
      StructRow(db, w, b, rows, p, j);
      SenseRow(db, w, b, rows, p, i);
      StructRefIs(rows, k, n.data.structure.value, n.parent);
    }
  }

  lemma StructRow(db: DB, w: Id, b: SaveInput, rows: Rows, p: nat, j: nat)
    requires Stored(db, w, b, rows) && p < |b.pos| && j < |b.pos[p].structures|
    ensures var k := Key(Structs, b.pos[p].structures[j].id); k in rows && rows[k].parent == b.pos[p].id
  {
    hide NodesOk, Doc, OthersKept, Split, Rooted, SavedData, KeptAudio;
    var n := StructN(b.pos[p].id, j, b.pos[p].structures[j]);
    StructIn(b, p, j, n);
    assert rows[KeyOf(n)] == SavedRow(db, w, b, rows, n);
  }

  lemma SenseRow(db: DB, w: Id, b: SaveInput, rows: Rows, p: nat, i: nat)
    requires Stored(db, w, b, rows) && p < |b.pos| && i < |b.pos[p].senses|
    ensures var k := Key(Senses, b.pos[p].senses[i].id); k in rows && rows[k].parent == b.pos[p].id
  {
    hide NodesOk, Doc, OthersKept, Split, Rooted, SavedData, KeptAudio;
    var n := SenseN(b.pos[p].id, i, b.pos[p].senses[i]);
    SenseIn(b, p, i, n);
    assert rows[KeyOf(n)] == SavedRow(db, w, b, rows, n);
  }

  lemma NotSense(d: Data, rows: Rows, k: Key, gone: set<Key>)
    requires k in rows && rows[k].data == Unlinked(d, gone, {}) && (d.SenseData? ==> d.group.None?)
    ensures GroupRefOk(rows, k)
  {
  }

  lemma NotDefinition(d: Data, rows: Rows, k: Key, gone: set<Key>)
    requires k in rows && rows[k].data == Unlinked(d, gone, {}) && (d.DefData? ==> d.structure.None?)
    ensures StructRefOk(rows, k)
  {
  }

  /** Rows of other words are where they were. */
  lemma ForeignStays(db: DB, w: Id, b: SaveInput, rows: Rows, k: Key)
    requires Stored(db, w, b, rows) && k in db.rows && Root(db.rows, k) != Some(w)
    ensures k in rows && k !in Incoming(b) && rows[k].parent == db.rows[k].parent && k !in Gone(db, w, b)
  {
    hide NodesOk, Doc, BodyStored, Rooted, Unlinked, Incoming;
  }

  lemma ForeignGroupRef(db: DB, w: Id, b: SaveInput, rows: Rows, k: Key)
    requires Stored(db, w, b, rows) && RefsInside(db.rows) && k in rows && k !in Incoming(b) && k.table.Senses?
    ensures GroupRefOk(rows, k)
  {
    hide *;
    ForeignRow(db, w, b, rows, k);
    var d := db.rows[k].data;
    if d.SenseData? && d.group.Some? {
      var g, p := d.group.value, db.rows[k].parent;
      GroupsInside(db.rows, k);
      GroupRefIs(db.rows, k, g, p);
      SenseGroupSameEntry(db.rows, k);
      RootAbove(db.rows, k);
      ForeignStays(db, w, b, rows, Key(Groups, g));
      ForeignStays(db, w, b, rows, Key(Pos, p));
      KeptGroup(d, g, Gone(db, w, b));
      GroupRefIs(rows, k, g, p);
    } else {
      NotSense(d, rows, k, Gone(db, w, b));
    }
  }

  lemma KeptGroup(d: Data, g: Id, gone: set<Key>)
    requires d.SenseData? && d.group == Some(g) && Key(Groups, g) !in gone
    ensures Unlinked(d, gone, {}) == d
  {
  }

  lemma KeptStruct(d: Data, g: Id, gone: set<Key>)
    requires d.DefData? && d.structure == Some(g) && Key(Structs, g) !in gone
    ensures Unlinked(d, gone, {}) == d
  {
  }

  lemma ForeignStructRef(db: DB, w: Id, b: SaveInput, rows: Rows, k: Key)
    requires Stored(db, w, b, rows) && RefsInside(db.rows) && k in rows && k !in Incoming(b) && k.table.Defs?
    ensures StructRefOk(rows, k)
  {
    hide *;
    ForeignRow(db, w, b, rows, k);
    var d := db.rows[k].data;
    if d.DefData? && d.structure.Some? {
      var g, s := d.structure.value, db.rows[k].parent;
      StructsInside(db.rows, k);
      StructRefIs(db.rows, k, g, s);
      DefinitionStructSameEntry(db.rows, k);
      RootAbove(db.rows, k);
      ForeignStays(db, w, b, rows, Key(Structs, g));
      ForeignStays(db, w, b, rows, Key(Senses, s));
      KeptStruct(d, g, Gone(db, w, b));
      StructRefIs(rows, k, g, s);
    } else {
      NotDefinition(d, rows, k, Gone(db, w, b));
    }
  }

  lemma SavingRefs(db: DB, w: Id, b: SaveInput, rows: Rows)
    requires Stored(db, w, b, rows) && RefsInside(db.rows)
    ensures RefsInside(rows)
  {
    forall k | k in rows && k.table.Senses? ensures GroupRefOk(rows, k) {
      hide Stored, RefsInside, Incoming, GroupRefOk;
      if k in Incoming(b) {
        BodyGroupRef(db, w, b, rows, k);
      } else {
        ForeignGroupRef(db, w, b, rows, k);
      }
    }
    forall k | k in rows && k.table.Defs? ensures StructRefOk(rows, k) {
      hide Stored, RefsInside, Incoming, StructRefOk;
      if k in Incoming(b) {
        BodyStructRef(db, w, b, rows, k);
      } else {
        ForeignStructRef(db, w, b, rows, k);
      }
    }
  }

  // --- Unique parts of speech and dialects ---

  lemma BodySide(db: DB, w: Id, b: SaveInput, rows: Rows, k: Key, l: Key)
    requires Stored(db, w, b, rows) && k in rows && l in rows && k.table == l.table && rows[k].parent == rows[l].parent
    ensures k in Incoming(b) <==> l in Incoming(b)
  {
    BothSides(db, w, b, rows, k, l);
    BothSides(db, w, b, rows, l, k);
  }

  lemma BothSides(db: DB, w: Id, b: SaveInput, rows: Rows, k: Key, l: Key)
    requires Stored(db, w, b, rows) && k in rows && l in rows && k.table == l.table && rows[k].parent == rows[l].parent
    ensures k in Incoming(b) ==> l in Incoming(b)
  {
    hide NodesOk, Doc, BodyStored, OthersKept, Rooted, Incoming;
    if k in Incoming(b) {
      BodyChild(db, w, b, rows, l.table, rows[l].parent, l);
    }
  }

  /** A pos row of the body is a tab, a variant row a variant of one of its structures. */
  lemma TabOfRow(db: DB, w: Id, b: SaveInput, rows: Rows, k: Key) returns (i: nat)
    requires Stored(db, w, b, rows) && k in Incoming(b) && k.table.Pos?
    ensures i < |b.pos| && b.pos[i].id == k.id && k in rows && rows[k].data == PosData(b.pos[i].pos)
  {
    hide NodesOk, Doc, Stored, Incoming, KeptAudio, SavedLink, PosHas;
    var n := StoredNode(db, w, b, rows, k);
    i := LocatePos(b, n);
  }

  lemma VariantOfRow(db: DB, w: Id, b: SaveInput, rows: Rows, k: Key) returns (p: nat, g: nat, i: nat)
    requires Stored(db, w, b, rows) && k in Incoming(b) && k.table.Variants?
    ensures p < |b.pos| && g < |b.pos[p].structures| && i < |b.pos[p].structures[g].variants|
    ensures b.pos[p].structures[g].variants[i].id == k.id
    ensures k in rows && rows[k].parent == b.pos[p].structures[g].id && rows[k].data.VariantData?
    ensures rows[k].data.variantDialect == b.pos[p].structures[g].variants[i].dialect
  {
    hide NodesOk, Doc, Stored, Incoming, KeptAudio, SavedLink, PosHas;
    var n := StoredNode(db, w, b, rows, k);
    p, g := InStructAt(b, n);
    i :| i < |b.pos[p].structures[g].variants| && n == VariantN(b.pos[p].structures[g].id, i, b.pos[p].structures[g].variants[i]);
  }

  lemma BodyTabsUnique(db: DB, w: Id, b: SaveInput, rows: Rows, k: Key, l: Key)
    requires Stored(db, w, b, rows) && k in Incoming(b) && l in Incoming(b) && k in rows && l in rows
    requires SameTab(rows, k, l)
    ensures k == l
  {
    StoredNodes(db, w, b, rows);
    var i := TabOfRow(db, w, b, rows, k);
    var j := TabOfRow(db, w, b, rows, l);
    hide Stored, TabsOk, IdsOk, GroupsOk, Doc, Incoming;
  }

  lemma DialectsUnique(b: SaveInput, p: nat, g: nat, i: nat, j: nat)
    requires NodesOk(b) && p < |b.pos| && g < |b.pos[p].structures|
    requires i < |b.pos[p].structures[g].variants| && j < |b.pos[p].structures[g].variants|
    requires b.pos[p].structures[g].variants[i].dialect == b.pos[p].structures[g].variants[j].dialect
    ensures i == j
  {
    TabOk(b, p);
    hide NodesOk, FormOk, SenseOk, VariantOk;
    assert StructOk(AllowedSet(b.mode, b.dialects), b.pos[p].structures[g]);
  }

  lemma BodyVariantsUnique(db: DB, w: Id, b: SaveInput, rows: Rows, k: Key, l: Key)
    requires Stored(db, w, b, rows) && k in Incoming(b) && l in Incoming(b) && k in rows && l in rows
    requires SameVariant(rows, k, l)
    ensures k == l
  {
    StoredNodes(db, w, b, rows);
    IdsOkOf(b);
    hide Stored, NodesOk, IdsOk, Doc, Incoming;
    var p, g, i := VariantOfRow(db, w, b, rows, k);
    var q, h, j := VariantOfRow(db, w, b, rows, l);
    OneStruct(b, p, g, q, h);
    DialectsUnique(b, p, g, i, j);
  }

  lemma SameBefore(db: DB, w: Id, b: SaveInput, rows: Rows, k: Key, l: Key)
    requires Stored(db, w, b, rows) && k in rows && l in rows && k !in Incoming(b) && l !in Incoming(b)
    ensures k in db.rows && l in db.rows
    ensures SameTab(rows, k, l) ==> SameTab(db.rows, k, l)
    ensures SameVariant(rows, k, l) ==> SameVariant(db.rows, k, l)
  {
    hide Stored, Incoming, Root, Owned, Gone, Unlinked, Run, Valid, Doc;
    ForeignRow(db, w, b, rows, k);
    ForeignRow(db, w, b, rows, l);
    NoLinks(db.rows[k].data, Gone(db, w, b));
    NoLinks(db.rows[l].data, Gone(db, w, b));
  }

  lemma NoLinks(d: Data, gone: set<Key>)
    ensures Unlinked(d, gone, {}).PosData? || Unlinked(d, gone, {}).VariantData? ==> Unlinked(d, gone, {}) == d
  {
  }

  lemma SavingUnique(db: DB, w: Id, b: SaveInput, rows: Rows)
    requires Stored(db, w, b, rows) && UniqueOk(db.rows)
    ensures UniqueOk(rows)
  {
    forall k, l | k in rows && l in rows && SameTab(rows, k, l) ensures k == l {
      hide Stored, Incoming;
      BodySide(db, w, b, rows, k, l);
      if k in Incoming(b) {
        BodyTabsUnique(db, w, b, rows, k, l);
      } else {
        SameBefore(db, w, b, rows, k, l);
      }
    }
    forall k, l | k in rows && l in rows && SameVariant(rows, k, l) ensures k == l {
      hide Stored, Incoming;
      BodySide(db, w, b, rows, k, l);
      if k in Incoming(b) {
        BodyVariantsUnique(db, w, b, rows, k, l);
      } else {
        SameBefore(db, w, b, rows, k, l);
      }
    }
  }

  // --- Valid entries ---

  lemma ServedAlike(o: Origin, now: Token)
    requires o.w in o.before.words && LinksOk(o.before) && NodesOk(o.body)
    ensures Alike(o.body, Echo(ServedTree(o, now)))
  {
    var ps, qs := o.body.pos, ServedTabs(o, o.body.pos);
    forall i: nat | i < |ps| ensures AlikeTab(ps[i], qs[i]) {
      hide LinksOk, AlikeTab, ServedTab, NodesOk;
      ServedTabAlike(o, i);
    }
  }

  lemma ServedTabAlike(o: Origin, p: nat)
    requires LinksOk(o.before) && NodesOk(o.body) && p < |o.body.pos|
    ensures AlikeTab(o.body.pos[p], ServedTab(o, o.body.pos[p]))
  {
    var x := o.body.pos[p];
    forall i: nat | i < |x.senses| ensures AlikeSense(x.senses[i], ServedSense(o, x.senses[i])) {
      hide LinksOk, AlikeSense, ServedSense, NodesOk;
      ServedSenseAlike(o, p, i);
    }
    hide LinksOk, NodesOk, AlikeSense, ServedSense;
  }

  lemma ServedSenseAlike(o: Origin, p: nat, i: nat)
    requires LinksOk(o.before) && NodesOk(o.body) && p < |o.body.pos| && i < |o.body.pos[p].senses|
    ensures var s := o.body.pos[p].senses[i]; AlikeSense(s, ServedSense(o, s))
  {
    var s := o.body.pos[p].senses[i];
    forall k: nat | k < |s.relations|
      ensures ServedRel(o, s.relations[k]).target.sense.Some? ==> ServedRel(o, s.relations[k]).target.word.Some?
    {
      RelationsOk(o.body, p, i, k);
      hide NodesOk;
      ServedLinkOk(o, s.relations[k]);
    }
    hide LinksOk, NodesOk, ServedRel;
  }

  lemma ServedLinkOk(o: Origin, r: Relation)
    requires LinksOk(o.before) && RelationOk(r)
    ensures ServedRel(o, r).target.sense.Some? ==> ServedRel(o, r).target.word.Some?
  {
    hide Root, Gone, Owned, GlossAt;
    var k := Key(Rels, r.id);
    if k in o.before.rows && o.before.rows[k].data.RelData? {
      assert LinkOk(o.before, o.before.rows[k].data.target);
    }
  }

  /** Saved, then loaded: the body's tree, with kept audio and resolved targets. */
  lemma RoundTrip(db: DB, w: Id, b: SaveInput, now: Token, after: DB)
    requires Rooted(db) && RowsFit(db.rows) && NodesOk(b) && FrequencyOk(b.frequency)
    requires CanSave(db, w, b) && Replaces(db, w, b, now, after)
    ensures w in db.words && w in after.words && RowsFit(after.rows)
    ensures TreeOf(after, w) == ServedTree(Origin(db, w, b, after.rows), now)
  {
    hide Rooted, NodesOk, CanSave, Stored, BodyStored, OthersKept, RowsFit, GroupsOf, TabsOf, ServedTabs, FrequencyOk;
    ReplacedStored(db, w, b, now, after);
    StoredFits(db, w, b, after.rows);
    var o := Origin(db, w, b, after.rows);
    GroupsServed(o);
    TabsServed(o);
  }

  lemma SavedEntryValid(db: DB, w: Id, b: SaveInput, now: Token, after: DB)
    requires Saving(db, w, b, now, after)
    ensures RowsFit(after.rows) && w in after.words && Valid(Echo(TreeOf(after, w)))
  {
    hide Rooted, NodesOk, CanSave, Replaces, RowsFit, EntriesValid, LinksOk, AllListed, RefsInside, UniqueOk,
      FrequencyOk, ModeOk, TreeOf, Alike, ServedTabs;
    RoundTrip(db, w, b, now, after);
    var o := Origin(db, w, b, after.rows);
    ServedAlike(o, now);
    AlikeOk(b, Echo(ServedTree(o, now)));
  }

  lemma SavingFrame(db: DB, w: Id, b: SaveInput, now: Token, after: DB, v: Id)
    requires Saving(db, w, b, now, after) && v in db.words && v != w
    ensures Frame(db, Lost(Gone(db, w, b), {}), v, after)
  {
    hide Rooted, NodesOk, CanSave, Replaces, RowsFit, EntriesValid, LinksOk, AllListed, RefsInside, UniqueOk, Carries, Stored;
    SavingStored(db, w, b, now, after);
    SavingCarries(db, w, b, now, after, v);
    StoredFits(db, w, b, after.rows);
  }

  /** Saving one entry: every other entry's tree is the same, but for links to the senses that are gone. */
  lemma OthersUntouched(db: DB, w: Id, b: SaveInput, now: Token, after: DB, v: Id)
    requires Saving(db, w, b, now, after) && v in db.words && v != w
    ensures RowsFit(db.rows) && RowsFit(after.rows) && v in after.words
    ensures TreeOf(after, v) == UnlinkedTree(Lost(Gone(db, w, b), {}), TreeOf(db, v))
  {
    SavingFrame(db, w, b, now, after, v);
    hide Saving, Carries, RefsInside, AllListed, RowsFit, TreeOf, UnlinkedTree;
    TreeFramed(db, Lost(Gone(db, w, b), {}), v, after);
  }

  lemma FramedEntryValid(x: Lost, t: Word)
    requires Valid(Echo(t)) && x.words == {}
    ensures Valid(Echo(UnlinkedTree(x, t)))
  {
    hide NodesOk, FrequencyOk, ModeOk, UnlinkedTabs, Alike, Proper;
    ProperWithoutWords(x, t);
    UnlinkedAlike(x, t);
    AlikeOk(Echo(t), Echo(UnlinkedTree(x, t)));
  }

  lemma SavingEntries(db: DB, w: Id, b: SaveInput, now: Token, after: DB)
    requires Saving(db, w, b, now, after)
    ensures RowsFit(after.rows) && EntriesValid(after)
  {
    SavingParts(db, w, b, now, after);
    hide Saving, RowsFit, Valid, TreeOf, Gone, WF;
    SavedEntryValid(db, w, b, now, after);
    forall v | v in after.words ensures Valid(Echo(TreeOf(after, v))) {
      if v != w {
        EntryValid(db, v);
        OthersUntouched(db, w, b, now, after, v);
        FramedEntryValid(Lost(Gone(db, w, b), {}), TreeOf(db, v));
      }
    }
  }

  lemma SavingParts(db: DB, w: Id, b: SaveInput, now: Token, after: DB)
    requires Saving(db, w, b, now, after)
    ensures WF(db) && forall v | v in after.words :: v == w || v in db.words
  {
    hide WF, Valid, CanSave, BodyStored, OthersKept;
  }

  /** The invariant survives every save. */
  lemma SaveKeepsWF(db: DB, w: Id, b: SaveInput, now: Token, after: DB)
    requires Saving(db, w, b, now, after)
    ensures WF(after)
  {
    SavingStored(db, w, b, now, after);
    SavingEntries(db, w, b, now, after);
    hide Valid, CanSave, Replaces, Stored, Rooted, RowsFit, AllListed, LinksOk, RefsInside, UniqueOk, EntriesValid;
    StoredRooted(db, w, b, now, after);
    StoredListed(db, w, b, after.rows);
    SavingLinks(db, w, b, now, after);
    SavingRefs(db, w, b, after.rows);
    SavingUnique(db, w, b, after.rows);
  }

  /** A row that survives a save of any entry stays with the entry that owned it. */
  lemma OwnerKept(db: DB, w: Id, b: SaveInput, now: Token, after: DB, k: Key)
    requires Saving(db, w, b, now, after) && k in db.rows && k in after.rows
    ensures Root(after.rows, k) == Root(db.rows, k)
  {
    SavingStored(db, w, b, now, after);
    hide Saving, Stored, Root, Incoming;
    StoredRoot(db, w, b, after.rows, k);
    if k in Incoming(b) {
      KeptIsOwned(db, w, b, after.rows, k);
    } else {
      ForeignRow(db, w, b, after.rows, k);
    }
  }

  lemma KeptIsOwned(db: DB, w: Id, b: SaveInput, rows: Rows, k: Key)
    requires Stored(db, w, b, rows) && k in Incoming(b) && k in db.rows
    ensures Root(db.rows, k) == Some(w)
  {
    hide NodesOk, Doc, BodyStored, OthersKept, Rooted, Root, Incoming;
    OwnedRoot(db.rows, w, k);
  }
}
