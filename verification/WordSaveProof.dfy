/** The statements of a save carry out the replacement: Saved succeeds exactly when CanSave, and then Replaces. */
module WordSaveProof {
  import opened Basics
  import opened WordModel
  import opened WordTables
  import opened WordValidation
  import opened WordPositions
  import opened WordStore
  import opened WordRead
  import opened WordGloss
  import opened WordSave
  import opened WordPasses
  import opened WordBody
  import opened WordReplace

  // --- Between the passes ---

  function NoRels(rows: Rows): Rows {
    map k | k in rows && !k.table.Rels? :: rows[k]
  }

  ghost predicate Sound(db: DB, w: Id, b: SaveInput) {
    Rooted(db) && RowsFit(db.rows) && NodesOk(b) && w in db.words
  }

  ghost predicate IsMid(db: DB, w: Id, b: SaveInput, now: Token, mid: DB) {
    Sound(db, w, b) && After(Cleared(db, w, b, now), w, Owned(db.rows, w), FirstPass(b), mid)
  }

  /** The deletes leave other words' rows, with their parents. */
  lemma ForeignSurvives(db: DB, w: Id, b: SaveInput, now: Token, k: Key)
    requires w in db.words && k in db.rows && k !in Owned(db.rows, w)
    ensures var rows := Cleared(db, w, b, now).rows; k in rows && rows[k].parent == db.rows[k].parent
  {
    hide Doc, Doomed, Unlinked;
    if Doomed(db.rows, Gone(db, w, b), k) {
      DoomedSameRoot(db.rows, Gone(db, w, b), w, k);
      assert false;
    }
  }

  lemma Survivor(db: DB, w: Id, b: SaveInput, now: Token, k: Key)
    requires w in db.words && k in Cleared(db, w, b, now).rows
    ensures k in db.rows && (k in Owned(db.rows, w) ==> k in Incoming(b))
    ensures var r := Cleared(db, w, b, now).rows[k];
      r == db.rows[k].(data := Unlinked(db.rows[k].data, Dead(db.rows, Gone(db, w, b)), {}))
  {
    hide Doc, Doomed, Unlinked;
    if k in Gone(db, w, b) {
      GoneDoomed(db.rows, Gone(db, w, b), k);
    }
  }

  lemma StaticKeys(b: SaveInput, k: Key)
    requires NodesOk(b)
    ensures k in KeySet(FirstPass(b)) <==> k in Incoming(b) && !k.table.Rels?
    ensures k in KeySet(SecondPass(b)) <==> k in Incoming(b) && k.table.Rels?
  {
    IdsOkOf(b);
    hide NodesOk, IdsOk, Doc, FirstPass, SecondPass;
    if n :| n in Doc(b) && KeyOf(n) == k {
      PassByTable(b, n);
      InPasses(b, n);
    }
    if n :| n in FirstPass(b) && KeyOf(n) == k {
      InPasses(b, n);
      PassByTable(b, n);
    }
    if n :| n in SecondPass(b) && KeyOf(n) == k {
      InPasses(b, n);
      PassByTable(b, n);
    }
  }

  lemma MidMine(db: DB, w: Id, b: SaveInput, now: Token, mid: DB, k: Key)
    requires IsMid(db, w, b, now, mid) && k in KeySet(FirstPass(b))
    ensures k in mid.rows && !k.table.Rels? && (k in db.rows ==> k in Owned(db.rows, w))
    ensures if Top(k.table) then mid.rows[k].parent == w else ParentKey(k.table, mid.rows[k].parent) in KeySet(FirstPass(b))
  {
    hide NodesOk, Doc, FirstPass, Owned, Cleared, Content;
    StaticKeys(b, k);
    var n :| n in FirstPass(b) && KeyOf(n) == k;
    InPasses(b, n);
    PlacedExpected(db, w, b, now, n);
    assert mid.rows[k] == Written(Cleared(db, w, b, now), w, Owned(db.rows, w), n);
    if !Top(k.table) {
      ParentInBody(b, n);
    }
  }

  lemma MidForeign(db: DB, w: Id, b: SaveInput, now: Token, mid: DB, k: Key)
    requires IsMid(db, w, b, now, mid) && k in mid.rows && !k.table.Rels? && k !in KeySet(FirstPass(b))
    ensures k in db.rows && k !in Owned(db.rows, w) && mid.rows[k].parent == db.rows[k].parent
    ensures !Top(k.table) ==> ParentKey(k.table, db.rows[k].parent) in mid.rows
  {
    hide NodesOk, Doc, FirstPass, Owned, Cleared, Written, Ready, Unlinked;
    Survivor(db, w, b, now, k);
    StaticKeys(b, k);
    if !Top(k.table) {
      ForeignParent(db, w, k);
      ForeignSurvives(db, w, b, now, ParentKey(k.table, db.rows[k].parent));
    }
  }

  lemma MidSplit(db: DB, w: Id, b: SaveInput, now: Token, mid: DB)
    requires IsMid(db, w, b, now, mid)
    ensures Split(db, w, NoRels(mid.rows), KeySet(FirstPass(b)))
  {
    hide FirstPass, Owned, IsMid;
    var rows, mine := NoRels(mid.rows), KeySet(FirstPass(b));
    forall k | k in mine
      ensures k in rows && (k in db.rows ==> k in Owned(db.rows, w))
      ensures if Top(k.table) then rows[k].parent == w else ParentKey(k.table, rows[k].parent) in mine
    {
      MidMine(db, w, b, now, mid, k);
    }
    forall k | k in rows && k !in mine
      ensures k in db.rows && k !in Owned(db.rows, w) && rows[k].parent == db.rows[k].parent
      ensures !Top(k.table) ==> ParentKey(k.table, rows[k].parent) in rows
    {
      MidForeign(db, w, b, now, mid, k);
    }
  }

  /** Between the passes, a sense belongs to a word exactly when it does after the save. */
  lemma MidSense(db: DB, w: Id, b: SaveInput, now: Token, mid: DB, tw: Id, ts: Id)
    requires IsMid(db, w, b, now, mid)
    ensures Root(mid.rows, Key(Senses, ts)) == Some(tw) <==> LiveSense(db, w, b, tw, ts)
  {
    var k, rows := Key(Senses, ts), NoRels(mid.rows);
    MidSplit(db, w, b, now, mid);
    RootOffRels(mid.rows, rows, k);
    StaticKeys(b, k);
    hide NodesOk, Doc, FirstPass, Cleared, Written, Ready, Unlinked, Split;
    if k in rows {
      SplitRoot(db, w, rows, KeySet(FirstPass(b)), k);
      if k in KeySet(FirstPass(b)) {
        OwnedOrNew(db, w, rows, KeySet(FirstPass(b)), k);
      }
    } else {
      NotMine(db, w, rows, KeySet(FirstPass(b)), k);
      if k in db.rows && k !in Owned(db.rows, w) {
        ForeignSurvives(db, w, b, now, k);
      }
    }
  }

  lemma OwnedOrNew(db: DB, w: Id, rows: Rows, mine: set<Key>, k: Key)
    requires Split(db, w, rows, mine) && k in mine
    ensures Root(db.rows, k) == Some(w) || Root(db.rows, k) == None
  {
  }

  lemma NotMine(db: DB, w: Id, rows: Rows, mine: set<Key>, k: Key)
    requires Split(db, w, rows, mine) && k !in rows
    ensures k !in mine
  {
  }

  lemma MidTarget(db: DB, w: Id, b: SaveInput, now: Token, mid: DB, n: Node)
    requires IsMid(db, w, b, now, mid) && n.data.RelData?
    ensures Resolve(mid, Owned(db.rows, w), n).Ok? <==> TargetOk(db, w, b, n)
  {
    hide NodesOk, Doc, FirstPass, Owned, Written, Ready, LiveSense, Root, GlossAt, Cleared;
    ClearedState(db, w, b, now);
    if n.data.target.word.Some? && n.data.target.sense.Some? {
      MidSense(db, w, b, now, mid, n.data.target.word.value, n.data.target.sense.value);
    }
  }

  // --- Success and failure of each pass ---

  ghost function FirstRun(db: DB, w: Id, b: SaveInput, now: Token): Result<DB, SaveError>
    requires w in db.words
  {
    Run(Ok(Cleared(db, w, b, now)), w, Owned(db.rows, w), FirstPass(b))
  }

  lemma FirstOutcome(db: DB, w: Id, b: SaveInput, now: Token)
    requires Sound(db, w, b) && db.words[w].token == b.base
    ensures var r := FirstRun(db, w, b, now);
      && (r.Ok? ==> IsMid(db, w, b, now, r.value))
      && (r.Err? ==> !CanSave(db, w, b) && Blames(db, w, b, r.error))
  {
    hide NodesOk, Doc, FirstPass, Owned, Cleared, Doomed;
    IdsOkOf(b);
    ClearedState(db, w, b, now);
    DistinctRows(b);
    StaticFirst(b);
    FirstPassClosed(b);
    var tx, existing, ns := Cleared(db, w, b, now), Owned(db.rows, w), FirstPass(b);
    ClosedMore({}, tx.rows.Keys, ns);
    RunStatic(tx, w, existing, ns);
    var r := FirstRun(db, w, b, now);
    if r.Err? {
      var n :| n in ns && Explains(tx, existing, n, r.error);
      InPasses(b, n);
      PlacedExpected(db, w, b, now, n);
      if r.error == IdConflict {
        InCleared(db, w, b, now, KeyOf(n));
      }
    }
  }

  lemma InCleared(db: DB, w: Id, b: SaveInput, now: Token, k: Key)
    requires w in db.words && k in Cleared(db, w, b, now).rows
    ensures k in db.rows
  {
    hide Doc, Doomed, Unlinked;
  }

  lemma AllPlaced(db: DB, w: Id, b: SaveInput, now: Token, mid: DB, n: Node)
    requires IsMid(db, w, b, now, mid) && n in Doc(b)
    ensures !n.table.Rels? ==> Placed(db, w, b, n)
    ensures n.table.Rels? ==> (Placed(db, w, b, n) <==> AsExpected(Owned(db.rows, w), mid.rows, n))
  {
    IdsOkOf(b);
    hide NodesOk, IdsOk, Doc, FirstPass, SecondPass, Owned, Cleared, Doomed, Written;
    PlacedExpected(db, w, b, now, n);
    PassByTable(b, n);
    StaticKeys(b, KeyOf(n));
  }

  /** The first pass leaves relations as the deletes did. */
  lemma RelationUntouched(db: DB, w: Id, b: SaveInput, now: Token, mid: DB, k: Key)
    requires IsMid(db, w, b, now, mid) && k in mid.rows && k.table.Rels?
    ensures k in db.rows
    ensures mid.rows[k] == db.rows[k].(data := Unlinked(db.rows[k].data, Dead(db.rows, Gone(db, w, b)), {}))
  {
    hide NodesOk, Doc, FirstPass, Owned, Cleared, Written, Ready, Unlinked;
    StaticKeys(b, k);
    Survivor(db, w, b, now, k);
  }

  lemma SecondOutcome(db: DB, w: Id, b: SaveInput, now: Token, mid: DB)
    requires IsMid(db, w, b, now, mid) && db.words[w].token == b.base
    ensures var r := Run(Ok(mid), w, Owned(db.rows, w), SecondPass(b));
      && (r.Ok? ==> After(mid, w, Owned(db.rows, w), SecondPass(b), r.value) && CanSave(db, w, b))
      && (r.Err? ==> !CanSave(db, w, b) && Blames(db, w, b, r.error))
  {
    IdsOkOf(b);
    hide NodesOk, IdsOk, Doc, FirstPass, SecondPass, Owned, Cleared, Doomed, Written, Resolve, Placed, TargetOk;
    ClearedState(db, w, b, now);
    var existing, ns := Owned(db.rows, w), SecondPass(b);
    StillSafe(Cleared(db, w, b, now), w, existing, FirstPass(b), mid);
    MidFits(db, w, b, now, mid);
    DistinctRows(b);
    MidRelational(db, w, b, now, mid);
    RunRels(mid, w, existing, ns);
    var r := Run(Ok(mid), w, existing, ns);
    if r.Ok? {
      AllReady(db, w, b, now, mid, r.value);
    } else {
      var n :| n in ns && Explains(mid, existing, n, r.error);
      SecondBlame(db, w, b, now, mid, n, r.error);
    }
  }

  lemma MidFits(db: DB, w: Id, b: SaveInput, now: Token, mid: DB)
    requires IsMid(db, w, b, now, mid)
    ensures RowsFit(mid.rows)
  {
    IdsOkOf(b);
    hide NodesOk, IdsOk, Doc, FirstPass, Owned, Cleared, Resolve;
    ClearedState(db, w, b, now);
    forall k | k in mid.rows ensures Fits(k.table, mid.rows[k].data) {
      if k in KeySet(FirstPass(b)) {
        var n :| n in FirstPass(b) && KeyOf(n) == k;
        InPasses(b, n);
        NodeFits(b, n);
        StaticFirst(b);
        assert mid.rows[k] == Written(Cleared(db, w, b, now), w, Owned(db.rows, w), n);
      }
    }
  }

  lemma MidRelational(db: DB, w: Id, b: SaveInput, now: Token, mid: DB)
    requires IsMid(db, w, b, now, mid)
    ensures Relational(mid, SecondPass(b))
  {
    hide NodesOk, Doc, FirstPass, SecondPass, Owned, Cleared, Written, Ready;
    forall n | n in SecondPass(b)
      ensures n.data.RelData? && n.table.Rels? && ParentKey(Rels, n.parent) in mid.rows
      ensures n.data.target.word.None? ==> n.data.target.sense.None?
    {
      RelationNode(b, n);
    }
  }

  lemma SecondBlame(db: DB, w: Id, b: SaveInput, now: Token, mid: DB, n: Node, e: SaveError)
    requires IsMid(db, w, b, now, mid) && db.words[w].token == b.base
    requires n in SecondPass(b) && Explains(mid, Owned(db.rows, w), n, e)
    ensures !CanSave(db, w, b) && Blames(db, w, b, e)
  {
    hide NodesOk, Doc, FirstPass, SecondPass, Owned, Cleared, Written, Ready, Doomed;
    InPasses(b, n);
    RelationNode(b, n);
    AllPlaced(db, w, b, now, mid, n);
    MidTarget(db, w, b, now, mid, n);
  }

  lemma AllReady(db: DB, w: Id, b: SaveInput, now: Token, mid: DB, tx: DB)
    requires IsMid(db, w, b, now, mid) && db.words[w].token == b.base
    requires After(mid, w, Owned(db.rows, w), SecondPass(b), tx)
    ensures CanSave(db, w, b)
  {
    IdsOkOf(b);
    hide NodesOk, IdsOk, Doc, FirstPass, SecondPass, Owned, Cleared, Written, Resolve, Placed, TargetOk;
    forall n | n in Doc(b)
      ensures Placed(db, w, b, n) && (n.data.RelData? ==> TargetOk(db, w, b, n))
    {
      AllPlaced(db, w, b, now, mid, n);
      PassByTable(b, n);
      NodeFits(b, n);
      if n.table.Rels? {
        assert Ready(mid, Owned(db.rows, w), n);
        MidTarget(db, w, b, now, mid, n);
      }
    }
  }

  // --- The rows of a save that went through ---

  ghost predicate IsEnd(db: DB, w: Id, b: SaveInput, now: Token, mid: DB, tx: DB) {
    && IsMid(db, w, b, now, mid)
    && After(mid, w, Owned(db.rows, w), SecondPass(b), tx)
    && CanSave(db, w, b)
  }

  lemma EndDead(db: DB, w: Id, b: SaveInput)
    requires CanSave(db, w, b)
    ensures Dead(db.rows, Gone(db, w, b)) == Gone(db, w, b)
  {
    hide Doc, Placed, TargetOk;
    DeadIsGone(db, w, b);
  }

  lemma StaticStored(db: DB, w: Id, b: SaveInput, now: Token, mid: DB, tx: DB, n: Node)
    requires IsEnd(db, w, b, now, mid, tx) && n in Doc(b) && !n.table.Rels?
    ensures KeyOf(n) in tx.rows && tx.rows[KeyOf(n)] == SavedRow(db, w, b, tx.rows, n)
  {
    IdsOkOf(b);
    hide NodesOk, IdsOk, Doc, FirstPass, SecondPass, Owned, Cleared, Resolve, Placed, TargetOk, Unlinked, SavedLink;
    PassByTable(b, n);
    NodeFits(b, n);
    var k := KeyOf(n);
    StaticKeys(b, k);
    assert mid.rows[k] == Written(Cleared(db, w, b, now), w, Owned(db.rows, w), n);
    assert tx.rows[k] == mid.rows[k];
    if k in Owned(db.rows, w) {
      Survivor(db, w, b, now, k);
    }
  }

  /** The target that executing n stores, from the columns of its statement. */
  lemma ContentOf(tx: DB, existing: set<Key>, n: Node)
    requires n.data.RelData? && n.table.Rels? && Ready(tx, existing, n) && RowsFit(tx.rows)
    ensures var link, k := n.data.target, KeyOf(n);
      Content(tx, existing, n) == n.data.(target :=
        match link.word
        case None => StoredTarget(tx.rows, k)
        case Some(tw) => Link(link.word, link.sense, HeadwordOf(tx, tw),
          if link.sense.Some? then GlossAt(tx.rows, link.sense.value)
          else if k in existing then StoredTarget(tx.rows, k).gloss
          else ""))
  {
    hide GlossAt, Root;
    var k := KeyOf(n);
    if k in existing {
      assert Fits(k.table, tx.rows[k].data);
    }
  }

  lemma StoredBetween(db: DB, w: Id, b: SaveInput, now: Token, mid: DB, k: Key)
    requires IsMid(db, w, b, now, mid) && CanSave(db, w, b) && k.table.Rels? && k in mid.rows
    ensures StoredTarget(mid.rows, k) == UnlinkedTarget(StoredTarget(db.rows, k), Gone(db, w, b), {})
  {
    hide NodesOk, Doc, FirstPass, Owned, After, CanSave, Gone, Dead, Cleared, Run, Dropped, Fits;
    EndDead(db, w, b);
    RelationUntouched(db, w, b, now, mid, k);
    RelationFits(db.rows, k);
  }

  lemma RelationFits(rows: Rows, k: Key)
    requires RowsFit(rows) && k in rows && k.table.Rels?
    ensures rows[k].data.RelData?
  {
    assert Fits(k.table, rows[k].data);
  }

  lemma HeadwordsKept(db: DB, w: Id, b: SaveInput, now: Token, mid: DB, tw: Id)
    requires IsMid(db, w, b, now, mid)
    ensures HeadwordOf(mid, tw) == HeadwordOf(db, tw)
  {
    ClearedState(db, w, b, now);
    hide NodesOk, Doc, FirstPass, Owned, Written, Ready, Cleared;
  }

  lemma RelationContent(db: DB, w: Id, b: SaveInput, now: Token, mid: DB, tx: DB, n: Node)
    requires IsEnd(db, w, b, now, mid, tx) && n in SecondPass(b)
    requires RowsFit(mid.rows) && RowsFit(tx.rows) && AgreeOffRels(mid.rows, tx.rows)
    requires Ready(mid, Owned(db.rows, w), n)
    ensures Content(mid, Owned(db.rows, w), n) == SavedData(db, w, b, tx.rows, n)
  {
    RelationNode(b, n);
    var k, existing, link := KeyOf(n), Owned(db.rows, w), n.data.target;
    RelationExpected(mid, existing, n);
    hide NodesOk, Doc, FirstPass, SecondPass, Owned, After, Ready, Content, Cleared, GlossAt, CanSave, AgreeOffRels,
      RowsFit, StoredTarget, HeadwordOf, Gone, Run;
    ContentOf(mid, existing, n);
    if k in mid.rows {
      StoredBetween(db, w, b, now, mid, k);
    }
    if link.word.Some? {
      HeadwordsKept(db, w, b, now, mid, link.word.value);
    }
    if link.sense.Some? {
      GlossOffRels(mid.rows, tx.rows, link.sense.value);
    }
  }

  lemma RelationExpected(tx: DB, existing: set<Key>, n: Node)
    requires Ready(tx, existing, n) && n.data.RelData?
    ensures (KeyOf(n) in existing <==> KeyOf(n) in tx.rows) && Resolve(tx, existing, n).Ok?
  {
  }

  lemma RelationStored(db: DB, w: Id, b: SaveInput, now: Token, mid: DB, tx: DB, n: Node)
    requires IsEnd(db, w, b, now, mid, tx) && n in Doc(b) && n.table.Rels?
    requires RowsFit(mid.rows) && RowsFit(tx.rows) && AgreeOffRels(mid.rows, tx.rows)
    ensures KeyOf(n) in tx.rows && tx.rows[KeyOf(n)] == SavedRow(db, w, b, tx.rows, n)
  {
    IdsOkOf(b);
    hide NodesOk, IdsOk, Doc, FirstPass, SecondPass, Owned, Cleared, Content, SavedData, CanSave, AgreeOffRels, RowsFit;
    PassByTable(b, n);
    var k := KeyOf(n);
    assert tx.rows[k] == Written(mid, w, Owned(db.rows, w), n);
    RelationContent(db, w, b, now, mid, tx, n);
    if k in Owned(db.rows, w) {
      RelationUntouched(db, w, b, now, mid, k);
    }
  }

  lemma ForeignKept(db: DB, w: Id, b: SaveInput, now: Token, mid: DB, tx: DB, k: Key)
    requires IsEnd(db, w, b, now, mid, tx) && k in tx.rows && k !in Incoming(b)
    ensures k in db.rows && k !in Owned(db.rows, w)
    ensures tx.rows[k] == db.rows[k].(data := Unlinked(db.rows[k].data, Gone(db, w, b), {}))
  {
    hide NodesOk, Doc, FirstPass, SecondPass, Owned, Cleared, Written, Ready, CanSave, Unlinked;
    StaticKeys(b, k);
    Survivor(db, w, b, now, k);
    EndDead(db, w, b);
  }

  lemma ForeignThere(db: DB, w: Id, b: SaveInput, now: Token, mid: DB, tx: DB, k: Key)
    requires IsEnd(db, w, b, now, mid, tx) && k in db.rows && k !in Owned(db.rows, w)
    ensures k in tx.rows
  {
    hide NodesOk, Doc, FirstPass, SecondPass, Owned, Cleared, Written, Ready, CanSave;
    ForeignSurvives(db, w, b, now, k);
  }

  lemma EndReplaces(db: DB, w: Id, b: SaveInput, now: Token, mid: DB, tx: DB)
    requires IsEnd(db, w, b, now, mid, tx)
    ensures Replaces(db, w, b, now, tx)
  {
    EndAgrees(db, w, b, now, mid, tx);
    ClearedState(db, w, b, now);
    hide NodesOk, Doc, FirstPass, SecondPass, Owned, Cleared, Written, Ready, CanSave, SavedRow, Unlinked, AgreeOffRels, RowsFit;
    forall n | n in Doc(b) ensures KeyOf(n) in tx.rows && tx.rows[KeyOf(n)] == SavedRow(db, w, b, tx.rows, n) {
      if n.table.Rels? {
        RelationStored(db, w, b, now, mid, tx, n);
      } else {
        StaticStored(db, w, b, now, mid, tx, n);
      }
    }
    hide IsEnd;
    forall k | k in db.rows && k !in Owned(db.rows, w) ensures k in tx.rows {
      ForeignThere(db, w, b, now, mid, tx, k);
    }
    forall k | k in tx.rows && k !in Incoming(b)
      ensures k in db.rows && k !in Owned(db.rows, w)
      ensures tx.rows[k] == db.rows[k].(data := Unlinked(db.rows[k].data, Gone(db, w, b), {}))
    {
      ForeignKept(db, w, b, now, mid, tx, k);
    }
  }

  lemma EndAgrees(db: DB, w: Id, b: SaveInput, now: Token, mid: DB, tx: DB)
    requires IsEnd(db, w, b, now, mid, tx)
    ensures RowsFit(mid.rows) && RowsFit(tx.rows) && AgreeOffRels(mid.rows, tx.rows)
  {
    hide NodesOk, Doc, FirstPass, SecondPass, Owned, Cleared, Written, Ready, CanSave;
    MidFits(db, w, b, now, mid);
    MidRelational(db, w, b, now, mid);
    AfterRels(mid, w, Owned(db.rows, w), SecondPass(b), tx);
  }

  /**
   Before the commit checks: a save goes through exactly when it can, then replaces the tree,
   and otherwise says why.
   */
  lemma RunMeaning(db: DB, w: Id, b: SaveInput, now: Token)
    requires Sound(db, w, b) && db.words[w].token == b.base
    ensures var r := Run(FirstRun(db, w, b, now), w, Owned(db.rows, w), SecondPass(b));
      && (r.Ok? <==> CanSave(db, w, b))
      && (r.Ok? ==> Replaces(db, w, b, now, r.value))
      && (r.Err? ==> Blames(db, w, b, r.error))
  {
    hide NodesOk, Doc, FirstPass, SecondPass, Owned, Cleared, CanSave, Blames, Replaces;
    FirstOutcome(db, w, b, now);
    var first := FirstRun(db, w, b, now);
    if first.Err? {
      RunErr(first.error, w, Owned(db.rows, w), SecondPass(b));
    } else {
      SecondOutcome(db, w, b, now, first.value);
      var r := Run(first, w, Owned(db.rows, w), SecondPass(b));
      if r.Ok? {
        EndReplaces(db, w, b, now, first.value, r.value);
      }
    }
  }
}
