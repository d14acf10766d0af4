/**
 The node sequences of a valid body: the two passes of a save visit every node of the
 document once, and the first visits parents and referents before whatever needs them.
 */
module WordBody {
  import opened Basics
  import opened WordModel
  import opened WordTables
  import opened WordValidation
  import opened WordPositions
  import opened WordStore
  import opened WordSave
  import opened WordPasses

  lemma InPasses(b: SaveInput, n: Node)
    ensures n in Doc(b) <==> n in FirstPass(b) || n in SecondPass(b)
  {
    hide Doc, FirstPass, SecondPass;
    PassesAreDoc(b);
    assert n in Doc(b) <==> n in multiset(Doc(b));
  }

  lemma DistinctNodes(b: SaveInput)
    requires IdsOk(Doc(b))
    ensures NoDup(FirstPass(b) + SecondPass(b))
  {
    hide FirstPass, SecondPass;
    var ns, ds := FirstPass(b) + SecondPass(b), Doc(b);
    assert NoDup(ds) by {
      hide Doc;
      forall i, j | 0 <= i < j < |ds| ensures ds[i] != ds[j] {
        assert ds[i].id != ds[j].id;
      }
    }
    hide Doc;
    PassesAreDoc(b);
    NoDupBag(ds);
    NoDupBag(ns);
  }

  /** No row is written twice. */
  lemma DistinctRows(b: SaveInput)
    requires IdsOk(Doc(b))
    ensures DistinctKeys(FirstPass(b)) && DistinctKeys(SecondPass(b))
  {
    DistinctNodes(b);
    hide Doc, FirstPass, SecondPass;
    var f, s := FirstPass(b), SecondPass(b);
    var ns := f + s;
    forall i, j | 0 <= i < j < |f| ensures KeyOf(f[i]) != KeyOf(f[j]) {
      InPasses(b, f[i]);
      InPasses(b, f[j]);
      assert ns[i] != ns[j];
      if KeyOf(f[i]) == KeyOf(f[j]) {
        OneNode(b, f[i], f[j]);
      }
    }
    forall i, j | 0 <= i < j < |s| ensures KeyOf(s[i]) != KeyOf(s[j]) {
      InPasses(b, s[i]);
      InPasses(b, s[j]);
      assert ns[|f| + i] != ns[|f| + j];
      if KeyOf(s[i]) == KeyOf(s[j]) {
        OneNode(b, s[i], s[j]);
      }
    }
  }

  /** The second pass is the relations, each under a sense of the body. */
  lemma InSecondPass(b: SaveInput, n: Node)
    ensures n in SecondPass(b) <==> exists p: nat, i: nat, k: nat ::
      && p < |b.pos| && i < |b.pos[p].senses| && k < |b.pos[p].senses[i].relations|
      && n == RelN(b.pos[p].senses[i].id, k, b.pos[p].senses[i].relations[k])
  {
    InFlat(NIL, b.pos, PosRelNodes, n);
    forall p: nat | p < |b.pos|
      ensures n in PosRelNodes(NIL, p, b.pos[p]) <==> exists i: nat, k: nat ::
        && i < |b.pos[p].senses| && k < |b.pos[p].senses[i].relations|
        && n == RelN(b.pos[p].senses[i].id, k, b.pos[p].senses[i].relations[k])
    {
      InPosRelNodes(p, b.pos[p], n);
    }
  }

  lemma InPosRelNodes(i: nat, p: POS, n: Node)
    ensures n in PosRelNodes(NIL, i, p) <==> exists i: nat, k: nat ::
      && i < |p.senses| && k < |p.senses[i].relations| && n == RelN(p.senses[i].id, k, p.senses[i].relations[k])
  {
    InFlat(p.id, p.senses, SenseRelNodes, n);
    forall i: nat | i < |p.senses|
      ensures n in SenseRelNodes(p.id, i, p.senses[i]) <==> exists k: nat ::
        k < |p.senses[i].relations| && n == RelN(p.senses[i].id, k, p.senses[i].relations[k])
    {
      InFlat(p.senses[i].id, p.senses[i].relations, RelNodes, n);
    }
  }

  lemma PassByTable(b: SaveInput, n: Node)
    requires IdsOk(Doc(b)) && n in Doc(b)
    ensures n in SecondPass(b) <==> n.table.Rels?
    ensures n in FirstPass(b) <==> !n.table.Rels?
  {
    InSecondPass(b, n);
    InPasses(b, n);
    DistinctNodes(b);
    hide IdsOk, FirstPass, SecondPass, Doc;
    if n.table.Rels? {
      var p, i := InSenseAt(b, n);
      var s := b.pos[p].senses[i];
      var k: nat :| k < |s.relations| && n == RelN(s.id, k, s.relations[k]);
      var f, g := FirstPass(b), SecondPass(b);
      var y :| 0 <= y < |g| && g[y] == n;
      forall x | 0 <= x < |f| ensures f[x] != n {
        assert (f + g)[x] != (f + g)[|f| + y];
      }
    }
  }

  lemma NodeFits(b: SaveInput, n: Node)
    requires n in Doc(b)
    ensures Fits(n.table, n.data)
  {
    InDoc(b, n);
    if !(exists i: nat | i < |b.groups| :: n == GroupN(i, b.groups[i])) {
      var p: nat :| p < |b.pos| && PosHas(p, b.pos[p], n);
      FitsInTab(p, b.pos[p], n);
    }
  }

  lemma FitsInTab(i: nat, p: POS, n: Node)
    requires PosHas(i, p, n)
    ensures Fits(n.table, n.data)
  {
  }

  lemma StaticFirst(b: SaveInput)
    requires IdsOk(Doc(b))
    ensures Static(FirstPass(b))
  {
    hide IdsOk, Doc, FirstPass;
    forall n | n in FirstPass(b) ensures !n.data.RelData? {
      InPasses(b, n);
      PassByTable(b, n);
      NodeFits(b, n);
    }
  }

  /** A relation of a valid body: under a sense of the first pass, and no sense link without a word link. */
  lemma RelationNode(b: SaveInput, n: Node)
    requires NodesOk(b) && n in SecondPass(b)
    ensures n.data.RelData? && n.table.Rels? && ParentKey(Rels, n.parent) in KeySet(FirstPass(b))
    ensures n.data.target.word.None? ==> n.data.target.sense.None?
  {
    hide NodesOk, IdsOk, Doc, FirstPass, SecondPass, SenseHas;
    InSecondPass(b, n);
    var p: nat, i: nat, k: nat :| p < |b.pos| && i < |b.pos[p].senses| && k < |b.pos[p].senses[i].relations|
      && n == RelN(b.pos[p].senses[i].id, k, b.pos[p].senses[i].relations[k]);
    RelationsOk(b, p, i, k);
    SenseInFirst(b, p, i);
  }

  lemma SenseInFirst(b: SaveInput, p: nat, i: nat)
    requires NodesOk(b) && p < |b.pos| && i < |b.pos[p].senses|
    ensures Key(Senses, b.pos[p].senses[i].id) in KeySet(FirstPass(b))
  {
    IdsOkOf(b);
    hide NodesOk, IdsOk, Doc, FirstPass;
    var m := SenseN(b.pos[p].id, i, b.pos[p].senses[i]);
    SenseIn(b, p, i, m);
    PassByTable(b, m);
    InKeySet(FirstPass(b), m);
  }

  lemma IdsOkOf(b: SaveInput)
    requires NodesOk(b)
    ensures IdsOk(Doc(b))
  {
  }

  lemma TabOk(b: SaveInput, p: nat)
    requires NodesOk(b) && p < |b.pos|
    ensures PosOk(AllowedSet(b.mode, b.dialects), GroupIds(b.groups), b.pos[p])
  {
    hide PosOk;
  }

  lemma SensesOk(b: SaveInput, p: nat, i: nat)
    requires NodesOk(b) && p < |b.pos| && i < |b.pos[p].senses|
    ensures SenseOk(GroupIds(b.groups), StructIds(b.pos[p].structures), b.pos[p].senses[i])
  {
    hide NodesOk, SenseOk, FormOk, StructOk;
    TabOk(b, p);
  }

  lemma RelationsOk(b: SaveInput, p: nat, i: nat, k: nat)
    requires NodesOk(b) && p < |b.pos| && i < |b.pos[p].senses| && k < |b.pos[p].senses[i].relations|
    ensures RelationOk(b.pos[p].senses[i].relations[k])
  {
    hide NodesOk, RelationOk;
    SensesOk(b, p, i);
  }

  lemma DefinitionsOk(b: SaveInput, p: nat, i: nat, k: nat)
    requires NodesOk(b) && p < |b.pos| && i < |b.pos[p].senses| && k < |b.pos[p].senses[i].definitions|
    ensures DefinitionOk(StructIds(b.pos[p].structures), b.pos[p].senses[i].definitions[k])
  {
    hide NodesOk, DefinitionOk;
    SensesOk(b, p, i);
  }

  lemma SentencesOk(b: SaveInput, p: nat, i: nat, k: nat)
    requires NodesOk(b) && p < |b.pos| && i < |b.pos[p].senses| && k < |b.pos[p].senses[i].sentences|
    ensures SentenceOk(b.pos[p].senses[i].sentences[k])
  {
    hide NodesOk, SentenceOk;
    SensesOk(b, p, i);
  }

  lemma VariantsOk(b: SaveInput, p: nat, g: nat, k: nat)
    requires NodesOk(b) && p < |b.pos| && g < |b.pos[p].structures| && k < |b.pos[p].structures[g].variants|
    ensures VariantOk(AllowedSet(b.mode, b.dialects), b.pos[p].structures[g].variants[k])
  {
    hide NodesOk, VariantOk, FormOk, SenseOk;
    TabOk(b, p);
    assert StructOk(AllowedSet(b.mode, b.dialects), b.pos[p].structures[g]);
  }

  // --- The first pass only looks back ---

  lemma GroupsClosed(b: SaveInput)
    ensures Closed({}, Flat(NIL, b.groups, GroupNodes))
  {
    forall i: nat | i < |b.groups| ensures Closed({}, GroupNodes(NIL, i, b.groups[i])) {
      ClosedSingle({}, GroupN(i, b.groups[i]));
    }
    ClosedFlat({}, NIL, b.groups, GroupNodes);
  }

  lemma TabsClosed(b: SaveInput)
    ensures Closed({}, Flat(NIL, b.pos, PosNodes))
  {
    forall i: nat | i < |b.pos| ensures Closed({}, PosNodes(NIL, i, b.pos[i])) {
      ClosedSingle({}, PosN(i, b.pos[i]));
    }
    ClosedFlat({}, NIL, b.pos, PosNodes);
  }

  lemma FormsClosed(base: set<Key>, p: POS)
    requires Key(Pos, p.id) in base
    ensures Closed(base, Flat(p.id, p.forms, FormNodes))
  {
    forall i: nat | i < |p.forms| ensures Closed(base, FormNodes(p.id, i, p.forms[i])) {
      ClosedFamily(base, FormN(p.id, i, p.forms[i]), p.forms[i].pronunciations, PronNodes);
    }
    ClosedFlat(base, p.id, p.forms, FormNodes);
  }

  lemma StructsClosed(base: set<Key>, p: POS)
    requires Key(Pos, p.id) in base
    ensures Closed(base, Flat(p.id, p.structures, StructNodes))
  {
    forall i: nat | i < |p.structures| ensures Closed(base, StructNodes(p.id, i, p.structures[i])) {
      ClosedFamily(base, StructN(p.id, i, p.structures[i]), p.structures[i].variants, VariantNodes);
    }
    ClosedFlat(base, p.id, p.structures, StructNodes);
  }

  lemma SenseNeeds(base: set<Key>, groups: set<Id>, structs: set<Id>, pos: Id, i: nat, s: Sense)
    requires SenseOk(groups, structs, s) && Key(Pos, pos) in base
    requires forall g | g in groups :: Key(Groups, g) in base
    requires forall g | g in structs :: Key(Structs, g) in base
    ensures Needs(SenseN(pos, i, s)) <= base
    ensures forall k: nat | k < |s.definitions| ::
      Needs(DefN(s.id, k, s.definitions[k])) <= base + {Key(Senses, s.id)}
  {
    hide FrequencyOk, StoredText, SentenceOk, RelationOk;
    forall k: nat | k < |s.definitions| ensures Needs(DefN(s.id, k, s.definitions[k])) <= base + {Key(Senses, s.id)} {
      assert DefinitionOk(structs, s.definitions[k]);
    }
  }

  lemma SenseClosed(base: set<Key>, groups: set<Id>, structs: set<Id>, pos: Id, i: nat, s: Sense)
    requires SenseOk(groups, structs, s) && Key(Pos, pos) in base
    requires forall g | g in groups :: Key(Groups, g) in base
    requires forall g | g in structs :: Key(Structs, g) in base
    ensures Closed(base, SenseNodes(pos, i, s))
  {
    hide SenseOk, Closed, Flat;
    var n := SenseN(pos, i, s);
    var ds, ts := Flat(s.id, s.definitions, DefNodes), Flat(s.id, s.sentences, SentNodes);
    SenseNeeds(base, groups, structs, pos, i, s);
    ClosedFamily(base, n, s.definitions, DefNodes);
    KeySetConcat([n], ds);
    InKeySet([n] + ds, n);
    var more := base + KeySet([n] + ds);
    forall k: nat | k < |s.sentences| ensures Closed(more, SentNodes(s.id, k, s.sentences[k])) {
      ClosedSingle(more, SentN(s.id, k, s.sentences[k]));
    }
    ClosedFlat(more, s.id, s.sentences, SentNodes);
    ClosedConcat(base, [n] + ds, ts);
  }

  /** Every id of a list is the key of one of its nodes. */
  lemma IdsInKeySet<T>(ctx: Id, s: seq<T>, f: (Id, nat, T) -> seq<Node>, id: T -> Id, t: Table)
    requires forall i: nat | i < |s| :: f(ctx, i, s[i]) != [] && KeyOf(f(ctx, i, s[i])[0]) == Key(t, id(s[i]))
    ensures forall x | x in Keys(s, |s|, id) :: Key(t, x) in KeySet(Flat(ctx, s, f))
  {
    forall x | x in Keys(s, |s|, id) ensures Key(t, x) in KeySet(Flat(ctx, s, f)) {
      InKeys(s, |s|, id, x);
      var i: nat :| i < |s| && id(s[i]) == x;
      var n := f(ctx, i, s[i])[0];
      InFlat(ctx, s, f, n);
      InKeySet(Flat(ctx, s, f), n);
    }
  }

  lemma ContentClosed(base: set<Key>, allowed: set<Dialect>, groups: set<Id>, i: nat, p: POS)
    requires PosOk(allowed, groups, p) && Key(Pos, p.id) in base
    requires forall g | g in groups :: Key(Groups, g) in base
    ensures Closed(base, PosContentNodes(NIL, i, p))
  {
    var fs, gs := Flat(p.id, p.forms, FormNodes), Flat(p.id, p.structures, StructNodes);
    var ss := Flat(p.id, p.senses, SenseNodes);
    var structs := StructIds(p.structures);
    FormsClosed(base, p);
    StructsClosed(base + KeySet(fs), p);
    ClosedConcat(base, fs, gs);
    KeySetConcat(fs, gs);
    IdsInKeySet(p.id, p.structures, StructNodes, StructId, Structs);
    var more := base + KeySet(fs + gs);
    forall k: nat | k < |p.senses| ensures Closed(more, SenseNodes(p.id, k, p.senses[k])) {
      hide SenseOk;
      SenseClosed(more, groups, structs, p.id, k, p.senses[k]);
    }
    ClosedFlat(more, p.id, p.senses, SenseNodes);
    ClosedConcat(base, fs + gs, ss);
  }

  lemma TabInKeySet(b: SaveInput, i: nat, gs: seq<Node>)
    requires i < |b.pos|
    ensures Key(Pos, b.pos[i].id) in KeySet(gs + Flat(NIL, b.pos, PosNodes))
  {
    InFlat(NIL, b.pos, PosNodes, PosN(i, b.pos[i]));
    InKeySet(gs + Flat(NIL, b.pos, PosNodes), PosN(i, b.pos[i]));
  }

  lemma FirstPassClosed(b: SaveInput)
    requires NodesOk(b)
    ensures Closed({}, FirstPass(b))
  {
    hide Closed, Flat, PosOk, NodesOk;
    var gs, ts, cs := Flat(NIL, b.groups, GroupNodes), Flat(NIL, b.pos, PosNodes), Flat(NIL, b.pos, PosContentNodes);
    var allowed, groups := AllowedSet(b.mode, b.dialects), GroupIds(b.groups);
    GroupsClosed(b);
    TabsClosed(b);
    ClosedMore({}, {} + KeySet(gs), ts);
    ClosedConcat({}, gs, ts);
    KeySetConcat(gs, ts);
    IdsInKeySet(NIL, b.groups, GroupNodes, GroupId, Groups);
    var base := {} + KeySet(gs + ts);
    forall i: nat | i < |b.pos| ensures Closed(base, PosContentNodes(NIL, i, b.pos[i])) {
      TabOk(b, i);
      TabInKeySet(b, i, gs);
      ContentClosed(base, allowed, groups, i, b.pos[i]);
    }
    ClosedFlat(base, NIL, b.pos, PosContentNodes);
    ClosedConcat({}, gs + ts, cs);
  }
}
