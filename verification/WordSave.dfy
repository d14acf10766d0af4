/**
 The statements of a tree save (internal/word/repository.go, SaveTree and treeUpserter.exec):
 one UPDATE or INSERT per node, run in order, stopping at the first error.
 */
module WordSave {
  import opened Basics
  import opened WordModel
  import opened WordTables
  import opened WordValidation
  import opened WordStore
  import opened WordRead
  import opened WordGloss

  /** NewOrphan and Moved are the two invalid-input errors a save itself can raise. */
  datatype SaveError = NotFound | Stale | NewOrphan | Moved | IdConflict | BadTarget | Internal

  /** Which of the four target columns the UPDATE of a relation sets. */
  datatype Columns = AllColumns | AllButGloss | NoTarget

  function Merge(cols: Columns, d: Data, was: Data): Data {
    if !d.RelData? || !was.RelData? then d
    else
      match cols
      case AllColumns => d
      case AllButGloss => d.(target := d.target.(gloss := was.target.gloss))
      case NoTarget => d.(target := was.target)
  }

  /** The rows a node refers to: its parent and its foreign keys into the child tables. */
  function Needs(n: Node): set<Key> {
    (if Top(n.table) then {} else {ParentKey(n.table, n.parent)})
    + match n.data
      case SenseData(_, _, Some(g), _, _) => {Key(Groups, g)}
      case DefData(_, _, _, Some(s)) => {Key(Structs, s)}
      case RelData(_, Link(_, Some(s), _, _), _) => {Key(Senses, s)}
      case _ => {}
  }

  /** The foreign keys of the statement hold. */
  predicate RefsOk(tx: DB, w: Id, n: Node) {
    && (Top(n.table) ==> w in tx.words)
    && Needs(n) <= tx.rows.Keys
    && (n.data.RelData? && n.data.target.word.Some? ==> n.data.target.word.value in tx.words)
  }

  /** mapSaveErr on a foreign-key violation. */
  function Refused(t: Table): SaveError {
    if t.Rels? then BadTarget else Internal
  }

  /** One upsert: UPDATE when the id already lives under the word, INSERT otherwise. */
  function Exec(tx: DB, w: Id, existing: set<Key>, n: Node, cols: Columns): Result<DB, SaveError> {
    var k := KeyOf(n);
    if k in existing then
      if k !in tx.rows then Err(Moved)
      else if !RefsOk(tx, w, n) then Err(Refused(n.table))
      else
        var was := tx.rows[k];
        var parent := if Top(n.table) then was.parent else n.parent;
        Ok(tx.(rows := tx.rows[k := Row(parent, n.ord, Merge(cols, n.data, was.data), was.audio)]))
    else if k in tx.rows then Err(IdConflict)
    else if !RefsOk(tx, w, n) then Err(Refused(n.table))
    else
      var parent := if Top(n.table) then w else n.parent;
      Ok(tx.(rows := tx.rows[k := Row(parent, n.ord, n.data, SILENT)]))
  }

  /** A target's headword and gloss, if the word exists and owns the sense. */
  ghost function ResolveTarget(tx: DB, tw: Id, ts: Option<Id>): Option<(string, string)> {
    if tw !in tx.words then None
    else if ts.None? then Some((tx.words[tw].headword, ""))
    else if Root(tx.rows, Key(Senses, ts.value)) != Some(tw) then None
    else Some((tx.words[tw].headword, GlossAt(tx.rows, ts.value)))
  }

  /** The three kinds of relation: frozen orphan, live word without a sense, live sense. */
  ghost function Resolve(tx: DB, existing: set<Key>, n: Node): Result<(Node, Columns), SaveError>
    requires n.data.RelData?
  {
    var link := n.data.target;
    match link.word
    case None => if KeyOf(n) in existing then Ok((n, NoTarget)) else Err(NewOrphan)
    case Some(tw) =>
      match ResolveTarget(tx, tw, link.sense)
      case None => Err(BadTarget)
      case Some((headword, gloss)) =>
        Ok((n.(data := n.data.(target := Link(link.word, link.sense, headword, gloss))),
            if link.sense.None? then AllButGloss else AllColumns))
  }

  ghost function Step(tx: DB, w: Id, existing: set<Key>, n: Node): Result<DB, SaveError> {
    if n.data.RelData? then
      match Resolve(tx, existing, n)
      case Err(e) => Err(e)
      case Ok((m, cols)) => Exec(tx, w, existing, m, cols)
    else Exec(tx, w, existing, n, AllColumns)
  }

  ghost function ThenStep(st: Result<DB, SaveError>, w: Id, existing: set<Key>, n: Node): Result<DB, SaveError> {
    match st
    case Err(e) => Err(e)
    case Ok(tx) => Step(tx, w, existing, n)
  }

  ghost function Run(st: Result<DB, SaveError>, w: Id, existing: set<Key>, ns: seq<Node>): Result<DB, SaveError> {
    if ns == [] then st else ThenStep(Run(st, w, existing, ns[..|ns| - 1]), w, existing, ns[|ns| - 1])
  }

  lemma {:induction false} RunConcat(st: Result<DB, SaveError>, w: Id, existing: set<Key>, a: seq<Node>, b: seq<Node>)
    ensures Run(st, w, existing, a + b) == Run(Run(st, w, existing, a), w, existing, b)
  {
    if b == [] {
      assert a + b == a;
    } else {
      assert (a + b)[..|a + b| - 1] == a + b[..|b| - 1];
      RunConcat(st, w, existing, a, b[..|b| - 1]);
    }
  }

  lemma RunSingle(st: Result<DB, SaveError>, w: Id, existing: set<Key>, n: Node)
    ensures Run(st, w, existing, [n]) == ThenStep(st, w, existing, n)
  {
    assert [n][..0] == [];
  }

  /** An error is final. */
  lemma {:induction false} RunErr(e: SaveError, w: Id, existing: set<Key>, ns: seq<Node>)
    ensures Run(Err(e), w, existing, ns) == Err(e)
  {
    if ns == [] {
    } else {
      RunErr(e, w, existing, ns[..|ns| - 1]);
    }
  }

  // --- The keys of a pass, and references that only look back ---

  function KeySet(ns: seq<Node>): set<Key> {
    set n | n in ns :: KeyOf(n)
  }

  lemma KeySetConcat(a: seq<Node>, b: seq<Node>)
    ensures KeySet(a + b) == KeySet(a) + KeySet(b)
  {
    forall n | n in a + b ensures n in a || n in b { }
  }

  ghost predicate DistinctKeys(ns: seq<Node>) {
    forall i, j | 0 <= i < j < |ns| :: KeyOf(ns[i]) != KeyOf(ns[j])
  }

  /** Every node needs only rows in base or of nodes before it. */
  predicate Closed(base: set<Key>, ns: seq<Node>) {
    ns == [] || (Closed(base, ns[..|ns| - 1]) && Needs(ns[|ns| - 1]) <= base + KeySet(ns[..|ns| - 1]))
  }

  lemma {:induction false} ClosedMore(a: set<Key>, b: set<Key>, ns: seq<Node>)
    requires Closed(a, ns) && a <= b
    ensures Closed(b, ns)
  {
    if ns == [] {
    } else {
      ClosedMore(a, b, ns[..|ns| - 1]);
    }
  }

  lemma {:induction false} ClosedConcat(base: set<Key>, a: seq<Node>, b: seq<Node>)
    requires Closed(base, a) && Closed(base + KeySet(a), b)
    ensures Closed(base, a + b)
  {
    if b == [] {
      assert a + b == a;
    } else {
      var init := b[..|b| - 1];
      assert (a + b)[..|a + b| - 1] == a + init;
      ClosedConcat(base, a, init);
      KeySetConcat(a, init);
      assert base + KeySet(a) + KeySet(init) == base + KeySet(a + init);
    }
  }

  lemma {:induction false} ClosedFlat<T>(base: set<Key>, ctx: Id, s: seq<T>, f: (Id, nat, T) -> seq<Node>)
    requires forall i: nat | i < |s| :: Closed(base, f(ctx, i, s[i]))
    ensures Closed(base, Flat(ctx, s, f))
  {
    if s == [] {
    } else {
      var init, k := s[..|s| - 1], |s| - 1;
      assert forall i: nat | i < k :: init[i] == s[i];
      ClosedFlat(base, ctx, init, f);
      ClosedMore(base, base + KeySet(Flat(ctx, init, f)), f(ctx, k, s[k]));
      ClosedConcat(base, Flat(ctx, init, f), f(ctx, k, s[k]));
    }
  }

  lemma ClosedSingle(base: set<Key>, n: Node)
    requires Needs(n) <= base
    ensures Closed(base, [n])
  {
    assert [n][..0] == [];
  }

  /** A parent followed by its leaves. */
  lemma ClosedFamily<T>(base: set<Key>, n: Node, s: seq<T>, f: (Id, nat, T) -> seq<Node>)
    requires Needs(n) <= base
    requires forall i: nat | i < |s| :: |f(n.id, i, s[i])| == 1 && Needs(f(n.id, i, s[i])[0]) <= base + {KeyOf(n)}
    ensures Closed(base, [n] + Flat(n.id, s, f))
  {
    ClosedSingle(base, n);
    forall i: nat | i < |s| ensures Closed(base + KeySet([n]), f(n.id, i, s[i])) {
      assert f(n.id, i, s[i]) == [f(n.id, i, s[i])[0]];
      ClosedSingle(base + KeySet([n]), f(n.id, i, s[i])[0]);
    }
    ClosedFlat(base + KeySet([n]), n.id, s, f);
    ClosedConcat(base, [n], Flat(n.id, s, f));
  }

  lemma InKeySet(ns: seq<Node>, n: Node)
    requires n in ns
    ensures KeyOf(n) in KeySet(ns)
  {
  }
}
