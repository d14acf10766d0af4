/** Where the nodes of a body sit: membership in the node sequences, by position in the tree. */
module WordPositions {
  import opened Basics
  import opened WordModel
  import opened WordTables
  import opened WordValidation

  predicate FormHas(pos: Id, i: nat, f: Form, n: Node): (r: bool)
    ensures r ==> n.table.Forms? || n.table.Prons?
  {
    n == FormN(pos, i, f) || exists k: nat | k < |f.pronunciations| :: n == PronN(f.id, k, f.pronunciations[k])
  }

  predicate StructHas(pos: Id, i: nat, g: GrammarStructure, n: Node): (r: bool)
    ensures r ==> n.table.Structs? || n.table.Variants?
  {
    n == StructN(pos, i, g) || exists k: nat | k < |g.variants| :: n == VariantN(g.id, k, g.variants[k])
  }

  predicate SenseHas(pos: Id, i: nat, s: Sense, n: Node): (r: bool)
    ensures r ==> n.table.Senses? || n.table.Defs? || n.table.Sents? || n.table.Rels?
  {
    || n == SenseN(pos, i, s)
    || (exists k: nat | k < |s.definitions| :: n == DefN(s.id, k, s.definitions[k]))
    || (exists k: nat | k < |s.sentences| :: n == SentN(s.id, k, s.sentences[k]))
    || (exists k: nat | k < |s.relations| :: n == RelN(s.id, k, s.relations[k]))
  }

  predicate PosHas(i: nat, p: POS, n: Node): (r: bool)
    ensures r ==> !n.table.Groups?
  {
    || n == PosN(i, p)
    || (exists k: nat | k < |p.forms| :: FormHas(p.id, k, p.forms[k], n))
    || (exists k: nat | k < |p.structures| :: StructHas(p.id, k, p.structures[k], n))
    || (exists k: nat | k < |p.senses| :: SenseHas(p.id, k, p.senses[k], n))
  }

  predicate At(b: SaveInput, n: Node) {
    || (exists i: nat | i < |b.groups| :: n == GroupN(i, b.groups[i]))
    || (exists i: nat | i < |b.pos| :: PosHas(i, b.pos[i], n))
  }

  lemma InForm(pos: Id, i: nat, f: Form, n: Node)
    ensures n in FormNodes(pos, i, f) <==> FormHas(pos, i, f, n)
  {
    InFlat(f.id, f.pronunciations, PronNodes, n);
  }

  lemma InStruct(pos: Id, i: nat, g: GrammarStructure, n: Node)
    ensures n in StructNodes(pos, i, g) <==> StructHas(pos, i, g, n)
  {
    InFlat(g.id, g.variants, VariantNodes, n);
  }

  lemma InSense(pos: Id, i: nat, s: Sense, n: Node)
    ensures n in SenseDocNodes(pos, i, s) <==> SenseHas(pos, i, s, n)
  {
    InFlat(s.id, s.definitions, DefNodes, n);
    InFlat(s.id, s.sentences, SentNodes, n);
    InFlat(s.id, s.relations, RelNodes, n);
  }

  lemma InPos(i: nat, p: POS, n: Node)
    ensures n in PosDocNodes(NIL, i, p) <==> PosHas(i, p, n)
  {
    hide FormHas, StructHas, SenseHas, FormNodes, StructNodes, SenseDocNodes;
    InFlat(p.id, p.forms, FormNodes, n);
    InFlat(p.id, p.structures, StructNodes, n);
    InFlat(p.id, p.senses, SenseDocNodes, n);
    forall k: nat | k < |p.forms| ensures n in FormNodes(p.id, k, p.forms[k]) <==> FormHas(p.id, k, p.forms[k], n) {
      InForm(p.id, k, p.forms[k], n);
    }
    forall k: nat | k < |p.structures|
      ensures n in StructNodes(p.id, k, p.structures[k]) <==> StructHas(p.id, k, p.structures[k], n)
    {
      InStruct(p.id, k, p.structures[k], n);
    }
    forall k: nat | k < |p.senses| ensures n in SenseDocNodes(p.id, k, p.senses[k]) <==> SenseHas(p.id, k, p.senses[k], n) {
      InSense(p.id, k, p.senses[k], n);
    }
  }

  /** The document sequence holds exactly the nodes of the tree. */
  lemma InDoc(b: SaveInput, n: Node)
    ensures n in Doc(b) <==> At(b, n)
  {
    hide PosHas, PosDocNodes;
    InFlat(NIL, b.groups, GroupNodes, n);
    InFlat(NIL, b.pos, PosDocNodes, n);
    forall i: nat | i < |b.pos| ensures n in PosDocNodes(NIL, i, b.pos[i]) <==> PosHas(i, b.pos[i], n) {
      InPos(i, b.pos[i], n);
    }
  }

  /** One id, one node. */
  lemma OneNode(b: SaveInput, m: Node, n: Node)
    requires IdsOk(Doc(b)) && m in Doc(b) && n in Doc(b) && m.id == n.id
    ensures m == n
  {
  }

  // --- A node's position, level by level ---

  lemma InTab(b: SaveInput, n: Node) returns (p: nat)
    requires n in Doc(b) && !n.table.Groups?
    ensures p < |b.pos| && PosHas(p, b.pos[p], n)
  {
    hide PosHas;
    InDoc(b, n);
    p :| p < |b.pos| && PosHas(p, b.pos[p], n);
  }

  lemma LocateGroup(b: SaveInput, n: Node) returns (i: nat)
    requires n in Doc(b) && n.table.Groups?
    ensures i < |b.groups| && n == GroupN(i, b.groups[i])
  {
    hide PosHas;
    InDoc(b, n);
    i :| i < |b.groups| && n == GroupN(i, b.groups[i]);
  }

  lemma LocatePos(b: SaveInput, n: Node) returns (p: nat)
    requires n in Doc(b) && n.table.Pos?
    ensures p < |b.pos| && n == PosN(p, b.pos[p])
  {
    hide FormHas, StructHas, SenseHas, Doc, FormN, StructN, SenseN;
    p := InTab(b, n);
  }

  lemma InFormAt(b: SaveInput, n: Node) returns (p: nat, i: nat)
    requires n in Doc(b) && (n.table.Forms? || n.table.Prons?)
    ensures p < |b.pos| && i < |b.pos[p].forms| && FormHas(b.pos[p].id, i, b.pos[p].forms[i], n)
  {
    hide FormHas, StructHas, SenseHas, Doc, FormN, StructN, SenseN;
    p := InTab(b, n);
    i :| i < |b.pos[p].forms| && FormHas(b.pos[p].id, i, b.pos[p].forms[i], n);
  }

  lemma InStructAt(b: SaveInput, n: Node) returns (p: nat, i: nat)
    requires n in Doc(b) && (n.table.Structs? || n.table.Variants?)
    ensures p < |b.pos| && i < |b.pos[p].structures| && StructHas(b.pos[p].id, i, b.pos[p].structures[i], n)
  {
    hide FormHas, StructHas, SenseHas, Doc, FormN, StructN, SenseN;
    p := InTab(b, n);
    i :| i < |b.pos[p].structures| && StructHas(b.pos[p].id, i, b.pos[p].structures[i], n);
  }

  lemma InSenseAt(b: SaveInput, n: Node) returns (p: nat, i: nat)
    requires n in Doc(b) && (n.table.Senses? || n.table.Defs? || n.table.Sents? || n.table.Rels?)
    ensures p < |b.pos| && i < |b.pos[p].senses| && SenseHas(b.pos[p].id, i, b.pos[p].senses[i], n)
  {
    hide FormHas, StructHas, SenseHas, Doc, FormN, StructN, SenseN;
    p := InTab(b, n);
    i :| i < |b.pos[p].senses| && SenseHas(b.pos[p].id, i, b.pos[p].senses[i], n);
  }

  // --- Every position is a node ---

  lemma GroupIn(b: SaveInput, i: nat)
    requires i < |b.groups|
    ensures GroupN(i, b.groups[i]) in Doc(b)
  {
    InDoc(b, GroupN(i, b.groups[i]));
  }

  lemma PosIn(b: SaveInput, p: nat)
    requires p < |b.pos|
    ensures PosN(p, b.pos[p]) in Doc(b)
  {
    assert PosHas(p, b.pos[p], PosN(p, b.pos[p]));
    InDoc(b, PosN(p, b.pos[p]));
  }

  lemma FormIn(b: SaveInput, p: nat, i: nat, n: Node)
    requires p < |b.pos| && i < |b.pos[p].forms| && FormHas(b.pos[p].id, i, b.pos[p].forms[i], n)
    ensures n in Doc(b)
  {
    assert PosHas(p, b.pos[p], n);
    InDoc(b, n);
  }

  lemma StructIn(b: SaveInput, p: nat, i: nat, n: Node)
    requires p < |b.pos| && i < |b.pos[p].structures| && StructHas(b.pos[p].id, i, b.pos[p].structures[i], n)
    ensures n in Doc(b)
  {
    assert PosHas(p, b.pos[p], n);
    InDoc(b, n);
  }

  lemma SenseIn(b: SaveInput, p: nat, i: nat, n: Node)
    requires p < |b.pos| && i < |b.pos[p].senses| && SenseHas(b.pos[p].id, i, b.pos[p].senses[i], n)
    ensures n in Doc(b)
  {
    assert PosHas(p, b.pos[p], n);
    InDoc(b, n);
  }
}
