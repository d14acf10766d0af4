/**
 The store as its methods work on it (internal/word/repository.go): each call is one
 transaction, with the loops of the source over tables, nodes and rows.
 */
module WordRepository {
  import opened Basics
  import opened LikePattern
  import opened WordModel
  import opened WordTables
  import opened WordValidation
  import opened WordStore
  import opened WordRead
  import opened WordGloss
  import opened WordSave
  import opened WordPasses
  import opened WordBody
  import opened WordReplace
  import opened WordSaveProof
  import opened WordInvariant
  import opened WordQuery
  import opened WordSaveInvariant
  import opened WordWrites
  import opened WordFrame
  import WordLinks
  import WordSaved

  ghost function ThenExec(st: Result<DB, SaveError>, w: Id, existing: set<Key>, n: Node, cols: Columns): Result<DB, SaveError> {
    match st
    case Err(e) => Err(e)
    case Ok(tx) => Exec(tx, w, existing, n, cols)
  }

  lemma RunFlatStep<T>(st: Result<DB, SaveError>, w: Id, existing: set<Key>, ctx: Id, s: seq<T>, i: nat,
      f: (Id, nat, T) -> seq<Node>)
    requires i < |s|
    ensures Run(st, w, existing, Flat(ctx, s[..i + 1], f)) ==
      Run(Run(st, w, existing, Flat(ctx, s[..i], f)), w, existing, f(ctx, i, s[i]))
  {
    FlatStep(ctx, s, i, f);
    RunConcat(st, w, existing, Flat(ctx, s[..i], f), f(ctx, i, s[i]));
  }

  /** An error on the way is the error of the whole list. */
  lemma {:induction false} RunFlatErr<T>(st: Result<DB, SaveError>, w: Id, existing: set<Key>, ctx: Id, s: seq<T>, i: nat,
      f: (Id, nat, T) -> seq<Node>, e: SaveError)
    requires i <= |s| && Run(st, w, existing, Flat(ctx, s[..i], f)) == Err(e)
    ensures Run(st, w, existing, Flat(ctx, s, f)) == Err(e)
    decreases |s| - i
  {
    if i == |s| {
      assert s[..i] == s;
    } else {
      RunFlatStep(st, w, existing, ctx, s, i, f);
      RunErr(e, w, existing, f(ctx, i, s[i]));
      RunFlatErr(st, w, existing, ctx, s, i + 1, f, e);
    }
  }

  ghost predicate Leaves<T>(ctx: Id, s: seq<T>, f: (Id, nat, T) -> seq<Node>) {
    forall i: nat | i < |s| :: |f(ctx, i, s[i])| == 1 && !f(ctx, i, s[i])[0].data.RelData?
  }

  lemma StaticForm(pos: Id, i: nat, f: Form)
    ensures !FormN(pos, i, f).data.RelData? && Leaves(f.id, f.pronunciations, PronNodes)
  {
  }

  lemma StaticStruct(pos: Id, i: nat, g: GrammarStructure)
    ensures !StructN(pos, i, g).data.RelData? && Leaves(g.id, g.variants, VariantNodes)
  {
  }

  lemma StaticSense(pos: Id, i: nat, s: Sense)
    ensures !SenseN(pos, i, s).data.RelData?
    ensures Leaves(s.id, s.definitions, DefNodes) && Leaves(s.id, s.sentences, SentNodes)
  {
  }

  lemma SenseRun(st: Result<DB, SaveError>, w: Id, existing: set<Key>, pos: Id, i: nat, s: Sense)
    ensures Run(st, w, existing, SenseNodes(pos, i, s)) ==
      Run(Run(ThenStep(st, w, existing, SenseN(pos, i, s)), w, existing, Flat(s.id, s.definitions, DefNodes)),
        w, existing, Flat(s.id, s.sentences, SentNodes))
  {
    var n, ds := [SenseN(pos, i, s)], Flat(s.id, s.definitions, DefNodes);
    RunSingle(st, w, existing, SenseN(pos, i, s));
    RunConcat(st, w, existing, n, ds);
    RunConcat(st, w, existing, n + ds, Flat(s.id, s.sentences, SentNodes));
  }

  lemma ContentRun(st: Result<DB, SaveError>, w: Id, existing: set<Key>, i: nat, p: POS)
    ensures Run(st, w, existing, PosContentNodes(NIL, i, p)) ==
      Run(Run(Run(st, w, existing, Flat(p.id, p.forms, FormNodes)), w, existing, Flat(p.id, p.structures, StructNodes)),
        w, existing, Flat(p.id, p.senses, SenseNodes))
  {
    hide ThenStep, FormNodes, StructNodes, SenseNodes;
    var fs, gs := Flat(p.id, p.forms, FormNodes), Flat(p.id, p.structures, StructNodes);
    RunConcat(st, w, existing, fs, gs);
    RunConcat(st, w, existing, fs + gs, Flat(p.id, p.senses, SenseNodes));
  }

  /** Runs the statements of a save in order, remembering the first error and skipping the rest. */
  class TreeUpserter {
    var tx: DB
    var err: Option<SaveError>
    const word: Id
    const existing: set<Key>

    ghost function State(): Result<DB, SaveError>
      reads this
    {
      if err.Some? then Err(err.value) else Ok(tx)
    }

    constructor (tx: DB, word: Id, existing: set<Key>)
      ensures State() == Ok(tx) && this.word == word && this.existing == existing
    {
      this.tx, this.err := tx, None;
      this.word, this.existing := word, existing;
    }

    /** Update the node when its id already lives under the word, otherwise insert it. */
    method ExecNode(n: Node, cols: Columns)
      modifies this
      ensures State() == ThenExec(old(State()), word, existing, n, cols)
    {
      if err.Some? {
        return;
      }
      var k := KeyOf(n);
      if k in existing {
        if k !in tx.rows {
          err := Some(Moved);
        } else if !RefsOk(tx, word, n) {
          err := Some(Refused(n.table));
        } else {
          var was := tx.rows[k];
          var parent := if Top(n.table) then was.parent else n.parent;
          tx := tx.(rows := tx.rows[k := Row(parent, n.ord, Merge(cols, n.data, was.data), was.audio)]);
        }
        return;
      }
      if k in tx.rows {
        err := Some(IdConflict);
      } else if !RefsOk(tx, word, n) {
        err := Some(Refused(n.table));
      } else {
        var parent := if Top(n.table) then word else n.parent;
        tx := tx.(rows := tx.rows[k := Row(parent, n.ord, n.data, SILENT)]);
      }
    }

    method ExecStatic(n: Node)
      requires !n.data.RelData?
      modifies this
      ensures State() == ThenStep(old(State()), word, existing, n)
    {
      ExecNode(n, AllColumns);
    }

    /** One statement per element. */
    method ExecList<T>(ctx: Id, s: seq<T>, f: (Id, nat, T) -> seq<Node>)
      requires Leaves(ctx, s, f)
      modifies this
      ensures State() == Run(old(State()), word, existing, Flat(ctx, s, f))
    {
      hide ThenStep;
      ghost var st := State();
      assert s[..0] == [];
      for i := 0 to |s|
        invariant State() == Run(st, word, existing, Flat(ctx, s[..i], f))
      {
        var n := f(ctx, i, s[i])[0];
        assert f(ctx, i, s[i]) == [n];
        RunFlatStep(st, word, existing, ctx, s, i, f);
        RunSingle(State(), word, existing, n);
        ExecStatic(n);
      }
      assert s[..|s|] == s;
    }

    method ExecForms(pos: Id, fs: seq<Form>)
      modifies this
      ensures State() == Run(old(State()), word, existing, Flat(pos, fs, FormNodes))
    {
      hide ThenStep, FormN;
      ghost var st := State();
      assert fs[..0] == [];
      for i := 0 to |fs|
        invariant State() == Run(st, word, existing, Flat(pos, fs[..i], FormNodes))
      {
        var f := fs[i];
        RunFlatStep(st, word, existing, pos, fs, i, FormNodes);
        RunSingle(State(), word, existing, FormN(pos, i, f));
        RunConcat(State(), word, existing, [FormN(pos, i, f)], Flat(f.id, f.pronunciations, PronNodes));
        StaticForm(pos, i, f);
        ExecStatic(FormN(pos, i, f));
        ExecList(f.id, f.pronunciations, PronNodes);
      }
      assert fs[..|fs|] == fs;
    }

    method ExecStructs(pos: Id, gs: seq<GrammarStructure>)
      modifies this
      ensures State() == Run(old(State()), word, existing, Flat(pos, gs, StructNodes))
    {
      hide ThenStep, StructN;
      ghost var st := State();
      assert gs[..0] == [];
      for i := 0 to |gs|
        invariant State() == Run(st, word, existing, Flat(pos, gs[..i], StructNodes))
      {
        var g := gs[i];
        RunFlatStep(st, word, existing, pos, gs, i, StructNodes);
        RunSingle(State(), word, existing, StructN(pos, i, g));
        RunConcat(State(), word, existing, [StructN(pos, i, g)], Flat(g.id, g.variants, VariantNodes));
        StaticStruct(pos, i, g);
        ExecStatic(StructN(pos, i, g));
        ExecList(g.id, g.variants, VariantNodes);
      }
      assert gs[..|gs|] == gs;
    }

    method ExecSenses(pos: Id, ss: seq<Sense>)
      modifies this
      ensures State() == Run(old(State()), word, existing, Flat(pos, ss, SenseNodes))
    {
      hide ThenStep, SenseN;
      ghost var st := State();
      assert ss[..0] == [];
      for i := 0 to |ss|
        invariant State() == Run(st, word, existing, Flat(pos, ss[..i], SenseNodes))
      {
        var s := ss[i];
        RunFlatStep(st, word, existing, pos, ss, i, SenseNodes);
        SenseRun(State(), word, existing, pos, i, s);
        StaticSense(pos, i, s);
        ExecStatic(SenseN(pos, i, s));
        ExecList(s.id, s.definitions, DefNodes);
        ExecList(s.id, s.sentences, SentNodes);
      }
      assert ss[..|ss|] == ss;
    }

    /** What hangs off each tab, except relations. */
    method ExecContents(ps: seq<POS>)
      modifies this
      ensures State() == Run(old(State()), word, existing, Flat(NIL, ps, PosContentNodes))
    {
      ghost var st := State();
      assert ps[..0] == [];
      for i := 0 to |ps|
        invariant State() == Run(st, word, existing, Flat(NIL, ps[..i], PosContentNodes))
      {
        var p := ps[i];
        hide ThenStep, FormNodes, StructNodes, SenseNodes;
        RunFlatStep(st, word, existing, NIL, ps, i, PosContentNodes);
        ContentRun(State(), word, existing, i, p);
        ExecForms(p.id, p.forms);
        ExecStructs(p.id, p.structures);
        ExecSenses(p.id, p.senses);
      }
      assert ps[..|ps|] == ps;
    }

    /** Everything except relations, parents first. */
    method ExecTree(b: SaveInput)
      modifies this
      ensures State() == Run(old(State()), word, existing, FirstPass(b))
    {
      ghost var st := State();
      hide ThenStep, PosContentNodes;
      var gs, ps := Flat(NIL, b.groups, GroupNodes), Flat(NIL, b.pos, PosNodes);
      RunConcat(st, word, existing, gs, ps);
      RunConcat(st, word, existing, gs + ps, Flat(NIL, b.pos, PosContentNodes));
      ExecList(NIL, b.groups, GroupNodes);
      ExecList(NIL, b.pos, PosNodes);
      ExecContents(b.pos);
    }

    /** resolveTarget: headword and gloss of the target, or nothing if the reference is bad. */
    method Lookup(tw: Id, ts: Option<Id>) returns (r: Option<(string, string)>)
      ensures r == ResolveTarget(tx, tw, ts)
    {
      if ts.None? {
        if tw !in tx.words {
          return None;
        }
        return Some((tx.words[tw].headword, ""));
      }
      if tw !in tx.words || Root(tx.rows, Key(Senses, ts.value)) != Some(tw) {
        return None;
      }
      var gloss := FirstGloss(tx.rows, ts.value);
      return Some((tx.words[tw].headword, gloss));
    }

    /** One relation: frozen orphan, live word without a sense, or live sense. */
    method ExecRelation(n: Node)
      requires n.data.RelData?
      modifies this
      ensures State() == ThenStep(old(State()), word, existing, n)
    {
      if err.Some? {
        return;
      }
      var link := n.data.target;
      match link.word {
        case None =>
          if KeyOf(n) !in existing {
            err := Some(NewOrphan);
            return;
          }
          ExecNode(n, NoTarget);
        case Some(tw) =>
          hide RefsOk, ResolveTarget;
          var found := Lookup(tw, link.sense);
          if found.None? {
            err := Some(BadTarget);
            return;
          }
          var target := Link(link.word, link.sense, found.value.0, found.value.1);
          ExecNode(n.(data := n.data.(target := target)), if link.sense.None? then AllButGloss else AllColumns);
      }
    }

    method ExecRelations(pos: Id, k: nat, s: Sense)
      modifies this
      ensures State() == Run(old(State()), word, existing, SenseRelNodes(pos, k, s))
    {
      ghost var st := State();
      hide ThenStep;
      assert s.relations[..0] == [];
      for i := 0 to |s.relations|
        invariant State() == Run(st, word, existing, Flat(s.id, s.relations[..i], RelNodes))
      {
        if err.Some? {
          RunFlatErr(st, word, existing, s.id, s.relations, i, RelNodes, err.value);
          return;
        }
        RunFlatStep(st, word, existing, s.id, s.relations, i, RelNodes);
        RunSingle(State(), word, existing, RelN(s.id, i, s.relations[i]));
        ExecRelation(RelN(s.id, i, s.relations[i]));
      }
      assert s.relations[..|s.relations|] == s.relations;
    }

    method ExecTabRelations(k: nat, p: POS)
      modifies this
      ensures State() == Run(old(State()), word, existing, PosRelNodes(NIL, k, p))
    {
      ghost var st := State();
      hide ThenStep, SenseRelNodes;
      assert p.senses[..0] == [];
      for i := 0 to |p.senses|
        invariant State() == Run(st, word, existing, Flat(p.id, p.senses[..i], SenseRelNodes))
      {
        RunFlatStep(st, word, existing, p.id, p.senses, i, SenseRelNodes);
        ExecRelations(p.id, i, p.senses[i]);
      }
      assert p.senses[..|p.senses|] == p.senses;
    }

    /** Relations, once every sense of the body exists. */
    method ExecAllRelations(b: SaveInput)
      modifies this
      ensures State() == Run(old(State()), word, existing, SecondPass(b))
    {
      ghost var st := State();
      hide ThenStep, PosRelNodes;
      assert b.pos[..0] == [];
      for i := 0 to |b.pos|
        invariant State() == Run(st, word, existing, Flat(NIL, b.pos[..i], PosRelNodes))
      {
        RunFlatStep(st, word, existing, NIL, b.pos, i, PosRelNodes);
        ExecTabRelations(i, b.pos[i]);
      }
      assert b.pos[..|b.pos|] == b.pos;
    }
  }

  // --- Which rows are there, which are coming ---

  const DELETE_ORDER := [Rels, Sents, Defs, Senses, Variants, Structs, Prons, Forms, Pos, Groups]

  lemma InDeleteOrder(t: Table)
    ensures t in DELETE_ORDER
  {
    assert DELETE_ORDER[0] == Rels && DELETE_ORDER[1] == Sents && DELETE_ORDER[2] == Defs && DELETE_ORDER[3] == Senses
      && DELETE_ORDER[4] == Variants && DELETE_ORDER[5] == Structs && DELETE_ORDER[6] == Prons
      && DELETE_ORDER[7] == Forms && DELETE_ORDER[8] == Pos && DELETE_ORDER[9] == Groups;
  }

  /** The ids of every table under the word. */
  method ScopeIds(rows: Rows, w: Id) returns (existing: set<Key>)
    ensures existing == Owned(rows, w)
  {
    existing := {};
    for i := 0 to |DELETE_ORDER|
      invariant existing == set k | k in Owned(rows, w) && k.table in DELETE_ORDER[..i]
    {
      existing := existing + set k | k in Owned(rows, w) && k.table == DELETE_ORDER[i];
    }
    forall k | k in Owned(rows, w) ensures k in existing {
      InDeleteOrder(k.table);
    }
  }

  lemma KeySetFlatStep<T>(ctx: Id, s: seq<T>, i: nat, f: (Id, nat, T) -> seq<Node>)
    requires i < |s|
    ensures KeySet(Flat(ctx, s[..i + 1], f)) == KeySet(Flat(ctx, s[..i], f)) + KeySet(f(ctx, i, s[i]))
  {
    FlatStep(ctx, s, i, f);
    KeySetConcat(Flat(ctx, s[..i], f), f(ctx, i, s[i]));
  }

  lemma KeySetOne(n: Node)
    ensures KeySet([n]) == {KeyOf(n)}
  {
    forall k ensures k in KeySet([n]) <==> k == KeyOf(n) {
      assert n in [n];
    }
  }

  method CollectList<T>(ctx: Id, s: seq<T>, f: (Id, nat, T) -> seq<Node>) returns (ids: set<Key>)
    requires forall i: nat | i < |s| :: |f(ctx, i, s[i])| == 1
    ensures ids == KeySet(Flat(ctx, s, f))
  {
    ids := {};
    assert s[..0] == [];
    for i := 0 to |s|
      invariant ids == KeySet(Flat(ctx, s[..i], f))
    {
      KeySetFlatStep(ctx, s, i, f);
      var n := f(ctx, i, s[i])[0];
      assert f(ctx, i, s[i]) == [n];
      ids := ids + {KeyOf(n)};
    }
    assert s[..|s|] == s;
  }

  method CollectTab(i: nat, p: POS) returns (ids: set<Key>)
    ensures ids == KeySet(PosDocNodes(NIL, i, p))
  {
    var fs := CollectForms(p.id, p.forms);
    var gs := CollectStructs(p.id, p.structures);
    var ss := CollectSenses(p.id, p.senses);
    ids := {Key(Pos, p.id)} + fs + gs + ss;
    hide Flat;
    var nf, ng := Flat(p.id, p.forms, FormNodes), Flat(p.id, p.structures, StructNodes);
    KeySetConcat([PosN(i, p)], nf);
    KeySetConcat([PosN(i, p)] + nf, ng);
    KeySetConcat([PosN(i, p)] + nf + ng, Flat(p.id, p.senses, SenseDocNodes));
    KeySetOne(PosN(i, p));
  }

  method CollectForms(pos: Id, fs: seq<Form>) returns (ids: set<Key>)
    ensures ids == KeySet(Flat(pos, fs, FormNodes))
  {
    ids := {};
    assert fs[..0] == [];
    for i := 0 to |fs|
      invariant ids == KeySet(Flat(pos, fs[..i], FormNodes))
    {
      KeySetFlatStep(pos, fs, i, FormNodes);
      KeySetConcat([FormN(pos, i, fs[i])], Flat(fs[i].id, fs[i].pronunciations, PronNodes));
      var prons := CollectList(fs[i].id, fs[i].pronunciations, PronNodes);
      KeySetOne(FormN(pos, i, fs[i]));
      ids := ids + {Key(Forms, fs[i].id)} + prons;
    }
    assert fs[..|fs|] == fs;
  }

  method CollectStructs(pos: Id, gs: seq<GrammarStructure>) returns (ids: set<Key>)
    ensures ids == KeySet(Flat(pos, gs, StructNodes))
  {
    ids := {};
    assert gs[..0] == [];
    for i := 0 to |gs|
      invariant ids == KeySet(Flat(pos, gs[..i], StructNodes))
    {
      KeySetFlatStep(pos, gs, i, StructNodes);
      KeySetConcat([StructN(pos, i, gs[i])], Flat(gs[i].id, gs[i].variants, VariantNodes));
      var variants := CollectList(gs[i].id, gs[i].variants, VariantNodes);
      KeySetOne(StructN(pos, i, gs[i]));
      ids := ids + {Key(Structs, gs[i].id)} + variants;
    }
    assert gs[..|gs|] == gs;
  }

  method CollectSenses(pos: Id, ss: seq<Sense>) returns (ids: set<Key>)
    ensures ids == KeySet(Flat(pos, ss, SenseDocNodes))
  {
    ids := {};
    assert ss[..0] == [];
    for i := 0 to |ss|
      invariant ids == KeySet(Flat(pos, ss[..i], SenseDocNodes))
    {
      var s := ss[i];
      KeySetFlatStep(pos, ss, i, SenseDocNodes);
      SenseKeys(pos, i, s);
      var defs := CollectList(s.id, s.definitions, DefNodes);
      var sents := CollectList(s.id, s.sentences, SentNodes);
      var rels := CollectList(s.id, s.relations, RelNodes);
      ids := ids + {Key(Senses, s.id)} + defs + sents + rels;
    }
    assert ss[..|ss|] == ss;
  }

  lemma SenseKeys(pos: Id, i: nat, s: Sense)
    ensures KeySet(SenseDocNodes(pos, i, s)) == {Key(Senses, s.id)} + KeySet(Flat(s.id, s.definitions, DefNodes))
      + KeySet(Flat(s.id, s.sentences, SentNodes)) + KeySet(Flat(s.id, s.relations, RelNodes))
  {
    hide Flat;
    var n, ds, ts := [SenseN(pos, i, s)], Flat(s.id, s.definitions, DefNodes), Flat(s.id, s.sentences, SentNodes);
    KeySetConcat(n, ds);
    KeySetConcat(n + ds, ts);
    KeySetConcat(n + ds + ts, Flat(s.id, s.relations, RelNodes));
    KeySetOne(SenseN(pos, i, s));
  }

  /** Every node id in the body, per table. */
  method CollectIncomingIDs(b: SaveInput) returns (ids: set<Key>)
    ensures ids == Incoming(b)
  {
    ids := CollectList(NIL, b.groups, GroupNodes);
    ghost var groups := Flat(NIL, b.groups, GroupNodes);
    assert b.pos[..0] == [];
    for i := 0 to |b.pos|
      invariant ids == KeySet(groups) + KeySet(Flat(NIL, b.pos[..i], PosDocNodes))
    {
      hide PosDocNodes;
      KeySetFlatStep(NIL, b.pos, i, PosDocNodes);
      var tab := CollectTab(i, b.pos[i]);
      ids := ids + tab;
    }
    assert b.pos[..|b.pos|] == b.pos;
    KeySetConcat(groups, Flat(NIL, b.pos, PosDocNodes));
  }

  /** What goes from the first n tables of the delete order. */
  function GoneFrom(existing: set<Key>, incoming: set<Key>, n: nat): set<Key>
    requires n <= |DELETE_ORDER|
  {
    set k | k in existing && k !in incoming && k.table in DELETE_ORDER[..n]
  }

  lemma GoneStep(existing: set<Key>, incoming: set<Key>, n: nat)
    requires n < |DELETE_ORDER|
    ensures GoneFrom(existing, incoming, n + 1) ==
      GoneFrom(existing, incoming, n) + set k | k in existing && k.table == DELETE_ORDER[n] && k !in incoming
  {
    assert DELETE_ORDER[..n + 1] == DELETE_ORDER[..n] + [DELETE_ORDER[n]];
  }

  lemma GoneAll(existing: set<Key>, incoming: set<Key>)
    ensures GoneFrom(existing, incoming, 0) == {} && GoneFrom(existing, incoming, |DELETE_ORDER|) == existing - incoming
  {
    forall k | k in existing - incoming ensures k in GoneFrom(existing, incoming, |DELETE_ORDER|) {
      InDeleteOrder(k.table);
    }
  }

  /** Deletes in order what the body no longer carries; the order does not matter for the result. */
  method DeleteGone(tx: DB, existing: set<Key>, incoming: set<Key>) returns (after: DB)
    ensures after == DeleteRows(tx, existing - incoming)
  {
    hide DeleteRows, GoneFrom;
    after := tx;
    DeleteNothing(tx);
    GoneAll(existing, incoming);
    for i := 0 to |DELETE_ORDER|
      invariant after == DeleteRows(tx, GoneFrom(existing, incoming, i))
    {
      GoneStep(existing, incoming, i);
      var gone := set k | k in existing && k.table == DELETE_ORDER[i] && k !in incoming;
      assert gone == {} ==> GoneFrom(existing, incoming, i + 1) == GoneFrom(existing, incoming, i);
      if gone != {} {
        DeleteTwice(tx, GoneFrom(existing, incoming, i), gone);
        after := DeleteRows(after, gone);
      }
    }
  }

  // --- What the callers of the repository see ---

  /** The entry loads as the body says, and every other entry stands. */
  ghost predicate Saves(db: DB, w: Id, b: SaveInput, now: Token, after: DB) {
    && RowsFit(after.rows) && w in db.words && w in after.words
    && WordSaved.TreeSaved(WordSaved.Step(db, w, b, after), now, TreeOf(after, w))
    && WordLinks.OthersStand(db, after, {w})
  }

  lemma SavesThat(db: DB, w: Id, b: SaveInput, now: Token, after: DB)
    requires WF(db) && Valid(b) && CanSave(db, w, b) && Replaces(db, w, b, now, after) && now != ZERO_TIME
    ensures Saves(db, w, b, now, after)
  {
    assert Saving(db, w, b, now, after);
    hide WF, Valid, CanSave, Replaces, Saving, RowsFit, TreeOf;
    WordSaved.SavedThenLoaded(db, w, b, now, after);
    WordLinks.SaveStands(db, w, b, now, after);
    hide WordSaved.TreeSaved, WordLinks.OthersStand;
  }

  /** The entries in ws are gone with all their rows and nothing else is; every other entry stands. */
  ghost predicate DeletesOnly(db: DB, ws: set<Id>, after: DB) {
    && after.words == db.words - ws
    && (forall k | k in db.rows :: k in after.rows <==> Root(db.rows, k).Some? && Root(db.rows, k).value !in ws)
    && (forall k | k in after.rows :: k in db.rows)
    && WordLinks.OthersStand(db, after, ws)
  }

  lemma DeletesThat(db: DB, ws: set<Id>)
    requires WF(db)
    ensures DeletesOnly(db, ws, DeleteWords(db, ws))
  {
    hide WF, DeleteWords, Root, WordLinks.OthersStand;
    WordLinks.DeleteStands(db, ws);
  }

  // --- The repository ---

  datatype CreateError = HeadwordTaken

  class Repository {
    var db: DB
    const fold: char -> char

    ghost predicate Valid()
      reads this
    {
      WF(db) && HeadwordsUnique(db, fold)
    }

    constructor (fold: char -> char)
      ensures Valid() && db == DB(map[], map[])
    {
      this.db := DB(map[], map[]);
      this.fold := fold;
      new;
      EmptyStore();
    }

    method Create(w: Id, kind: Kind, headword: string, author: Id, now: Token) returns (r: Option<CreateError>)
      requires Valid() && now != ZERO_TIME
      modifies this
      ensures Valid()
      ensures r.None? <==> w !in old(db.words) && forall v | v in old(db.words) ::
        !(Fold(fold, old(db.words)[v].headword) == Fold(fold, headword) && old(db.words)[v].kind == kind)
      ensures db == if r.None? then Created(old(db), w, Shell(kind, headword, author, now)) else old(db)
    {
      if w in db.words || Taken(db, fold, headword, kind) {
        return Some(HeadwordTaken);
      }
      hide WF, Created;
      CreateKeepsWF(db, w, kind, headword, author, now);
      CreateKeepsUnique(db, fold, w, Shell(kind, headword, author, now));
      db := Created(db, w, Shell(kind, headword, author, now));
      return None;
    }

    method GetTree(w: Id) returns (r: Option<Word>)
      requires Valid()
      ensures RowsFit(db.rows) && r == if w in db.words then Some(TreeOf(db, w)) else None
    {
      WFParts(db);
      hide WF, RowsFit, AllListed, TreeOf;
      r := LoadTree(db, w);
    }

    /** All or nothing: the tree is replaced as a whole, or the error names a true obstacle. */
    method SaveTree(w: Id, b: SaveInput, now: Token) returns (r: Option<SaveError>)
      requires Valid() && WordValidation.Valid(b) && now != ZERO_TIME
      modifies this
      ensures Valid()
      ensures r.None? <==>
        w in old(db.words) && old(db.words)[w].token == b.base && forall n | n in Doc(b) :: NodeFitsIn(old(db), w, b, n)
      ensures r.None? <==> CanSave(old(db), w, b)
      ensures r.None? ==> Replaces(old(db), w, b, now, db)
      ensures r.None? ==> Saves(old(db), w, b, now, db)
      ensures r.Some? ==> db == old(db) && Blames(old(db), w, b, r.value)
    {
      CanSaveExactly(db, w, b);
      hide Doc, NodeFitsIn, WF, WordValidation.Valid, CanSave, Replaces, Saves, Cleared, HeadwordsUnique, Run, UniqueOk, KeepsHeadwords;
      if w !in db.words {
        CannotSave(db, w, b);
        return Some(NotFound);
      }
      if db.words[w].token != b.base {
        CannotSave(db, w, b);
        return Some(Stale);
      }
      SaveMeaning(db, w, b, now);
      ghost var result := Run(FirstRun(db, w, b, now), w, Owned(db.rows, w), SecondPass(b));
      var tx := db.(words := db.words[w := UpdatedRoot(db.words[w], b, now)]);
      var existing := ScopeIds(tx.rows, w);
      var incoming := CollectIncomingIDs(b);
      tx := DeleteGone(tx, existing, incoming);
      assert tx == Cleared(db, w, b, now) by {
        ClearedIs(db, w, b, now);
      }
      var up := new TreeUpserter(tx, w, existing);
      up.ExecTree(b);
      if up.err.Some? {
        RunErr(up.err.value, w, existing, SecondPass(b));
        return up.err;
      }
      up.ExecAllRelations(b);
      if up.err.Some? {
        return up.err;
      }
      if !UniqueOk(up.tx.rows) {
        return Some(Internal);
      }
      SameHeadwords(db, fold, up.tx);
      SavesThat(db, w, b, now, up.tx);
      db := up.tx;
      return None;
    }

    method SetStatus(w: Id, s: Status, base: Token, now: Token) returns (r: Option<SaveError>)
      requires Valid() && now != ZERO_TIME
      modifies this
      ensures Valid()
      ensures r.None? <==> w in old(db.words) && old(db.words[w].token) == base
      ensures r.None? ==> db == StatusSet(old(db), w, s, now)
      ensures r.Some? ==> db == old(db) && r.value == if w in db.words then Stale else NotFound
    {
      if w !in db.words {
        return Some(NotFound);
      }
      if db.words[w].token != base {
        return Some(Stale);
      }
      hide WF, HeadwordsUnique, StatusSet, KeepsHeadwords, TreeOf, RowsFit, Created;
      StatusKeepsWF(db, w, s, now);
      StatusKeepsHeadwords(db, w, s, now);
      SameHeadwords(db, fold, StatusSet(db, w, s, now));
      db := StatusSet(db, w, s, now);
      return None;
    }

    method Delete(w: Id) returns (r: Option<SaveError>)
      requires Valid()
      modifies this
      ensures Valid()
      ensures r.None? <==> w in old(db.words)
      ensures db == DeleteWords(old(db), {w}) && (r.Some? ==> db == old(db) && r.value == NotFound)
      ensures DeletesOnly(old(db), {w}, db)
    {
      hide WF, HeadwordsUnique, DeleteWords, DeletesOnly;
      DeleteKeepsWF(db, {w});
      DeletesThat(db, {w});
      DeleteKeepsUnique(db, fold, {w});
      if w !in db.words {
        DeleteUnknown(db, w);
        return Some(NotFound);
      }
      db := DeleteWords(db, {w});
      return None;
    }

    /** Unknown ids are skipped; the result counts the entries that were there. */
    method DeleteMany(ws: set<Id>) returns (n: nat)
      requires Valid()
      modifies this
      ensures Valid()
      ensures db == DeleteWords(old(db), ws) && n == |ws * old(db.words.Keys)|
      ensures DeletesOnly(old(db), ws, db)
    {
      hide WF, HeadwordsUnique, DeleteWords, DeletesOnly;
      DeletesThat(db, ws);
      DeleteKeepsWF(db, ws);
      DeleteKeepsUnique(db, fold, ws);
      n := |ws * db.words.Keys|;
      db := DeleteWords(db, ws);
    }
  }

  lemma EmptyStore()
    ensures WF(DB(map[], map[]))
  {
    forall t, p ensures Listed(map[], t, p) {
      assert IsKids(map[], t, p, []);
    }
  }

  lemma CannotSave(db: DB, w: Id, b: SaveInput)
    requires w !in db.words || db.words[w].token != b.base
    ensures !CanSave(db, w, b)
  {
  }

  lemma ClearedIs(db: DB, w: Id, b: SaveInput, now: Token)
    requires w in db.words
    ensures Cleared(db, w, b, now) ==
      DeleteRows(db.(words := db.words[w := UpdatedRoot(db.words[w], b, now)]), Owned(db.rows, w) - Incoming(b))
  {
  }

  /** What the statements of a save amount to, commit included. */
  lemma SaveMeaning(db: DB, w: Id, b: SaveInput, now: Token)
    requires WF(db) && Valid(b) && now != ZERO_TIME && w in db.words && db.words[w].token == b.base
    ensures var r := Run(FirstRun(db, w, b, now), w, Owned(db.rows, w), SecondPass(b));
      && (r.Ok? <==> CanSave(db, w, b))
      && (r.Ok? ==> Replaces(db, w, b, now, r.value) && UniqueOk(r.value.rows) && WF(r.value))
      && (r.Err? ==> Blames(db, w, b, r.error))
      && (r.Ok? ==> KeepsHeadwords(db, r.value))
  {
    WFParts(db);
    hide WF, CanSave, Replaces, KeepsHeadwords, Run, FirstRun, Rooted, RowsFit, NodesOk, UniqueOk, FrequencyOk, ModeOk;
    RunMeaning(db, w, b, now);
    var r := Run(FirstRun(db, w, b, now), w, Owned(db.rows, w), SecondPass(b));
    if r.Ok? {
      SaveKeepsWF(db, w, b, now, r.value);
      WFParts(r.value);
      ReplacedWords(db, w, b, now, r.value);
    }
  }

  lemma ReplacedWords(db: DB, w: Id, b: SaveInput, now: Token, after: DB)
    requires Replaces(db, w, b, now, after)
    ensures KeepsHeadwords(db, after)
  {
    hide BodyStored, OthersKept;
  }

  lemma StatusKeepsHeadwords(db: DB, w: Id, s: Status, now: Token)
    requires w in db.words
    ensures KeepsHeadwords(db, StatusSet(db, w, s, now))
  {
  }

  lemma DeleteKeepsUnique(db: DB, fold: char -> char, ws: set<Id>)
    requires HeadwordsUnique(db, fold)
    ensures HeadwordsUnique(DeleteWords(db, ws), fold)
  {
    DeletedWords(db, ws);
    hide DeleteWords;
  }

  lemma NoWordNoLink(db: DB, w: Id, k: Key)
    requires WF(db) && w !in db.words && k in db.rows
    ensures k !in WordStore.Under(db.rows, {w}) && Unlinked(db.rows[k].data, {}, {w}) == db.rows[k].data
  {
    hide *;
    WFParts(db);
    NotUnder(db, w, k);
    if db.rows[k].data.RelData? {
      RelDataTable(db.rows, k);
      RelationLinkOk(db, k);
      LiveLink(db, w, db.rows[k].data.target);
      UnlinkedRelation(db.rows[k].data, {}, {w});
    } else {
      NothingDropped(db.rows[k].data, {w});
    }
  }

  lemma NotUnder(db: DB, w: Id, k: Key)
    requires Rooted(db) && w !in db.words && k in db.rows
    ensures k !in WordStore.Under(db.rows, {w})
  {
    RootExists(db, k);
  }

  lemma RelDataTable(rows: Rows, k: Key)
    requires RowsFit(rows) && k in rows && rows[k].data.RelData?
    ensures k.table.Rels?
  {
    assert Fits(k.table, rows[k].data);
  }

  lemma LiveLink(db: DB, w: Id, link: Link)
    requires LinkOk(db, link) && w !in db.words
    ensures UnlinkedTarget(link, {}, {w}) == link
  {
    hide Root;
  }

  lemma NothingDropped(d: Data, ws: set<Id>)
    requires !d.RelData?
    ensures Unlinked(d, {}, ws) == d
  {
  }

  lemma DeleteUnknown(db: DB, w: Id)
    requires WF(db) && w !in db.words
    ensures DeleteWords(db, {w}) == db
  {
    hide WF, Unlinked, Root;
    forall k | k in db.rows ensures k !in WordStore.Under(db.rows, {w}) && Unlinked(db.rows[k].data, {}, {w}) == db.rows[k].data {
      NoWordNoLink(db, w, k);
    }
    assert WordStore.Under(db.rows, {w}) == {};
  }
}
