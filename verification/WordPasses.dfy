/**
 What the two passes of a save do to the rows: they go through exactly when every id is where
 the save thinks it is, and then each node's row is written once.
 */
module WordPasses {
  import opened Basics
  import opened WordModel
  import opened WordTables
  import opened WordValidation
  import opened WordPositions
  import opened WordStore
  import opened WordRead
  import opened WordGloss
  import opened WordSave

  /** The save takes existing rows for kept and all others for new; is that how they are? */
  predicate AsExpected(existing: set<Key>, rows: Rows, n: Node) {
    KeyOf(n) in existing <==> KeyOf(n) in rows
  }

  ghost predicate Ready(tx: DB, existing: set<Key>, n: Node) {
    AsExpected(existing, tx.rows, n) && (n.data.RelData? ==> Resolve(tx, existing, n).Ok?)
  }

  /** The row a node leaves behind when it is executed on tx. */
  ghost function Written(tx: DB, w: Id, existing: set<Key>, n: Node): Row
    requires Ready(tx, existing, n)
  {
    var k := KeyOf(n);
    var parent := if Top(n.table) then w else n.parent;
    var audio := if k in existing then tx.rows[k].audio else SILENT;
    Row(parent, n.ord, Content(tx, existing, n), audio)
  }

  ghost function Content(tx: DB, existing: set<Key>, n: Node): Data
    requires Ready(tx, existing, n)
  {
    if !n.data.RelData? then n.data
    else
      var (m, cols) := Resolve(tx, existing, n).value;
      if KeyOf(n) in existing then Merge(cols, m.data, tx.rows[KeyOf(n)].data) else m.data
  }

  /** tx is before, with the nodes written. */
  ghost predicate After(before: DB, w: Id, existing: set<Key>, ns: seq<Node>, tx: DB) {
    && tx.words == before.words
    && (forall n | n in ns :: Ready(before, existing, n))
    && (forall n | n in ns :: KeyOf(n) in tx.rows && tx.rows[KeyOf(n)] == Written(before, w, existing, n))
    && (forall k | k in before.rows :: k in tx.rows)
    && (forall k | k in tx.rows && k !in KeySet(ns) :: k in before.rows && tx.rows[k] == before.rows[k])
  }

  /** Why a statement fails. */
  ghost predicate Explains(tx: DB, existing: set<Key>, n: Node, e: SaveError) {
    match e
    case Moved => KeyOf(n) in existing && KeyOf(n) !in tx.rows
    case IdConflict => KeyOf(n) !in existing && KeyOf(n) in tx.rows
    case NewOrphan => n.data.RelData? && n.data.target.word.None? && KeyOf(n) !in existing
    case BadTarget => n.data.RelData? && n.data.target.word.Some?
      && ResolveTarget(tx, n.data.target.word.value, n.data.target.sense).None?
    case _ => false
  }

  /** A node whose references hold is written when its id is where the save expects it. */
  lemma ExecOutcome(tx: DB, w: Id, existing: set<Key>, n: Node, cols: Columns)
    requires RefsOk(tx, w, n)
    requires forall k | k in existing && k in tx.rows && Top(k.table) :: tx.rows[k].parent == w
    ensures Exec(tx, w, existing, n, cols).Ok? <==> AsExpected(existing, tx.rows, n)
    ensures var k, r := KeyOf(n), Exec(tx, w, existing, n, cols); r.Ok? ==>
      r.value == tx.(rows := tx.rows[k := Row(if Top(n.table) then w else n.parent, n.ord,
        if k in existing then Merge(cols, n.data, tx.rows[k].data) else n.data,
        if k in existing then tx.rows[k].audio else SILENT)])
    ensures var r := Exec(tx, w, existing, n, cols); r.Err? ==> Explains(tx, existing, n, r.error)
  {
  }

  ghost predicate Safe(tx: DB, w: Id, existing: set<Key>) {
    w in tx.words && forall k | k in existing && k in tx.rows && Top(k.table) :: tx.rows[k].parent == w
  }

  ghost predicate Static(ns: seq<Node>) {
    forall n | n in ns :: !n.data.RelData?
  }

  lemma AfterSnoc(before: DB, w: Id, existing: set<Key>, ns: seq<Node>, mid: DB, tx: DB)
    requires ns != [] && DistinctKeys(ns)
    requires After(before, w, existing, ns[..|ns| - 1], mid)
    requires Ready(before, existing, ns[|ns| - 1])
    requires var n := ns[|ns| - 1]; tx == mid.(rows := mid.rows[KeyOf(n) := Written(before, w, existing, n)])
    ensures After(before, w, existing, ns, tx)
  {
    hide Written, Ready;
    var init, last := ns[..|ns| - 1], ns[|ns| - 1];
    assert ns == init + [last];
    KeySetConcat(init, [last]);
    forall n | n in init ensures KeyOf(n) != KeyOf(last) {
      var i :| 0 <= i < |init| && init[i] == n;
      assert KeyOf(ns[i]) != KeyOf(ns[|ns| - 1]);
    }
  }

  lemma {:induction false} RunStatic(before: DB, w: Id, existing: set<Key>, ns: seq<Node>)
    requires Safe(before, w, existing) && Static(ns) && DistinctKeys(ns) && Closed(before.rows.Keys, ns)
    ensures var r := Run(Ok(before), w, existing, ns);
      && (r.Ok? ==> After(before, w, existing, ns, r.value))
      && (r.Err? ==> exists n | n in ns :: Explains(before, existing, n, r.error))
  {
    if ns == [] {
    } else {
      var init, last := ns[..|ns| - 1], ns[|ns| - 1];
      assert ns == init + [last];
      RunStatic(before, w, existing, init);
      var mid := Run(Ok(before), w, existing, init);
      if mid.Ok? {
        LastStatic(before, w, existing, ns, mid.value);
      } else {
        var n :| n in init && Explains(before, existing, n, mid.error);
        assert n in ns;
      }
    }
  }

  lemma NotAgain(before: DB, w: Id, existing: set<Key>, ns: seq<Node>, mid: DB)
    requires ns != [] && DistinctKeys(ns) && After(before, w, existing, ns[..|ns| - 1], mid)
    ensures var k := KeyOf(ns[|ns| - 1]);
      (k in mid.rows <==> k in before.rows) && (k in mid.rows ==> mid.rows[k] == before.rows[k])
    ensures KeySet(ns[..|ns| - 1]) <= mid.rows.Keys
  {
    hide Written, Ready;
    var init, last := ns[..|ns| - 1], ns[|ns| - 1];
    forall m | m in init ensures KeyOf(m) != KeyOf(last) {
      var i :| 0 <= i < |init| && init[i] == m;
      assert KeyOf(ns[i]) != KeyOf(ns[|ns| - 1]);
    }
  }

  lemma LastStatic(before: DB, w: Id, existing: set<Key>, ns: seq<Node>, mid: DB)
    requires ns != [] && Safe(before, w, existing) && Static(ns) && DistinctKeys(ns) && Closed(before.rows.Keys, ns)
    requires After(before, w, existing, ns[..|ns| - 1], mid)
    ensures var r := Step(mid, w, existing, ns[|ns| - 1]);
      && (r.Ok? ==> After(before, w, existing, ns, r.value))
      && (r.Err? ==> exists n | n in ns :: Explains(before, existing, n, r.error))
  {
    var last := ns[|ns| - 1];
    NotAgain(before, w, existing, ns, mid);
    StillSafe(before, w, existing, ns[..|ns| - 1], mid);
    assert last in ns;
    ExecOutcome(mid, w, existing, last, AllColumns);
    var r := Step(mid, w, existing, last);
    if r.Ok? {
      AfterSnoc(before, w, existing, ns, mid, r.value);
    }
  }

  lemma StillSafe(before: DB, w: Id, existing: set<Key>, ns: seq<Node>, tx: DB)
    requires Safe(before, w, existing) && After(before, w, existing, ns, tx)
    ensures Safe(tx, w, existing)
  {
    forall k | k in existing && k in tx.rows && Top(k.table) ensures tx.rows[k].parent == w {
      if k in KeySet(ns) {
        var n :| n in ns && KeyOf(n) == k;
        assert tx.rows[k] == Written(before, w, existing, n);
      }
    }
  }

  // --- The second pass ---

  /** The same rows everywhere but in the relations table. */
  ghost predicate AgreeOffRels(r: Rows, q: Rows) {
    forall k: Key | !k.table.Rels? :: (k in r <==> k in q) && (k in r ==> r[k] == q[k])
  }

  lemma {:induction false} RootOffRels(r: Rows, q: Rows, k: Key)
    requires AgreeOffRels(r, q) && !k.table.Rels?
    ensures Root(r, k) == Root(q, k)
    decreases Depth(k.table)
  {
    if k in r && !Top(k.table) {
      RootOffRels(r, q, ParentKey(k.table, r[k].parent));
    }
  }

  lemma GlossOffRels(r: Rows, q: Rows, sense: Id)
    requires AgreeOffRels(r, q)
    ensures GlossAt(r, sense) == GlossAt(q, sense)
  {
    if k :| IsFirst(r, sense, k) {
      FirstOffRels(r, q, sense, k);
      GlossIs(r, sense, k);
      GlossIs(q, sense, k);
    } else if k :| IsFirst(q, sense, k) {
      FirstOffRels(q, r, sense, k);
    }
  }

  lemma FirstOffRels(r: Rows, q: Rows, sense: Id, k: Key)
    requires AgreeOffRels(r, q) && IsFirst(r, sense, k)
    ensures IsFirst(q, sense, k)
  {
    forall l | IsDefOf(q, sense, l) && l != k ensures IsDefOf(q, sense, k) && Precedes(q, k, l) {
      assert IsDefOf(r, sense, l);
    }
  }

  lemma ResolveOffRels(a: DB, b: DB, existing: set<Key>, n: Node)
    requires n.data.RelData? && a.words == b.words
    requires AgreeOffRels(a.rows, b.rows) && RowsFit(a.rows) && RowsFit(b.rows)
    ensures Resolve(a, existing, n) == Resolve(b, existing, n)
  {
    hide GlossAt, Root, RowsFit;
    if n.data.target.sense.Some? {
      var ts := n.data.target.sense.value;
      RootOffRels(a.rows, b.rows, Key(Senses, ts));
      GlossOffRels(a.rows, b.rows, ts);
    }
  }

  ghost predicate Relational(before: DB, ns: seq<Node>) {
    forall n | n in ns ::
      && n.data.RelData? && n.table.Rels? && ParentKey(Rels, n.parent) in before.rows
      && (n.data.target.word.None? ==> n.data.target.sense.None?)
  }

  lemma AfterRels(before: DB, w: Id, existing: set<Key>, ns: seq<Node>, tx: DB)
    requires Relational(before, ns) && RowsFit(before.rows) && After(before, w, existing, ns, tx)
    ensures AgreeOffRels(before.rows, tx.rows) && RowsFit(tx.rows)
  {
    hide Resolve;
    forall k | k in tx.rows && k in KeySet(ns) ensures k.table.Rels? && Fits(k.table, tx.rows[k].data) {
      var n :| n in ns && KeyOf(n) == k;
      assert tx.rows[k] == Written(before, w, existing, n);
      ContentFits(before, existing, n);
    }
  }

  lemma ContentFits(tx: DB, existing: set<Key>, n: Node)
    requires Ready(tx, existing, n) && n.data.RelData?
    ensures Content(tx, existing, n).RelData?
  {
    hide ResolveTarget;
  }

  lemma {:induction false} RunRels(before: DB, w: Id, existing: set<Key>, ns: seq<Node>)
    requires Safe(before, w, existing) && Relational(before, ns) && DistinctKeys(ns) && RowsFit(before.rows)
    ensures var r := Run(Ok(before), w, existing, ns);
      && (r.Ok? ==> After(before, w, existing, ns, r.value))
      && (r.Err? ==> exists n | n in ns :: Explains(before, existing, n, r.error))
  {
    if ns == [] {
    } else {
      var init, last := ns[..|ns| - 1], ns[|ns| - 1];
      assert ns == init + [last];
      RunRels(before, w, existing, init);
      var mid := Run(Ok(before), w, existing, init);
      if mid.Ok? {
        LastRel(before, w, existing, ns, mid.value);
      } else {
        var n :| n in init && Explains(before, existing, n, mid.error);
        assert n in ns;
      }
    }
  }

  /** A resolved node refers to rows that exist. */
  lemma ResolvedRefs(tx: DB, w: Id, existing: set<Key>, n: Node)
    requires n.data.RelData? && n.table.Rels? && ParentKey(Rels, n.parent) in tx.rows
    requires n.data.target.word.None? ==> n.data.target.sense.None?
    requires Resolve(tx, existing, n).Ok?
    ensures RefsOk(tx, w, Resolve(tx, existing, n).value.0)
  {
    hide GlossAt;
  }

  lemma LastRel(before: DB, w: Id, existing: set<Key>, ns: seq<Node>, mid: DB)
    requires ns != [] && Safe(before, w, existing) && Relational(before, ns) && DistinctKeys(ns) && RowsFit(before.rows)
    requires After(before, w, existing, ns[..|ns| - 1], mid)
    ensures var r := Step(mid, w, existing, ns[|ns| - 1]);
      && (r.Ok? ==> After(before, w, existing, ns, r.value))
      && (r.Err? ==> exists n | n in ns :: Explains(before, existing, n, r.error))
  {
    hide ResolveTarget, RefsOk;
    var init, last := ns[..|ns| - 1], ns[|ns| - 1];
    assert last in ns;
    NotAgain(before, w, existing, ns, mid);
    StillSafe(before, w, existing, init, mid);
    AfterRels(before, w, existing, init, mid);
    ResolveOffRels(before, mid, existing, last);
    var q := Resolve(mid, existing, last);
    if q.Ok? {
      ResolvedRefs(mid, w, existing, last);
      ExecOutcome(mid, w, existing, q.value.0, q.value.1);
      var r := Step(mid, w, existing, last);
      if r.Ok? {
        AfterSnoc(before, w, existing, ns, mid, r.value);
      }
    }
  }
}
