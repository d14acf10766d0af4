/**
 The ten child tables of an entry, and the rows a tree stands for. Rows are keyed
 by (table, id): each table has its own primary key, so one id may occur in several.
 */
module WordTables {
  import opened Basics
  import opened WordModel

  datatype Table = Groups | Pos | Forms | Prons | Structs | Variants | Senses | Defs | Sents | Rels

  datatype Key = Key(table: Table, id: Id)

  /** The content columns of a row, apart from id, parent, sort_order and audio. */
  datatype Data =
    | GroupData(name: string)
    | PosData(pos: PosTag)
    | FormData(dialect: Dialect, formType: FormType, spelling: string)
    | PronData(dictPhonetic: string, actualPron: string, style: Style)
    | StructData
    | VariantData(variantDialect: Dialect, content: RichText)
    | SenseData(subPos: SubPos, level: Level, group: Option<Id>, frequency: Option<string>, dependsOnContext: bool)
    | DefData(defLevel: Level, defType: DefType, text: RichText, structure: Option<Id>)
    | SentData(sourceExample: Option<Id>, sentence: Option<RichText>)
    | RelData(relation: RelationType, target: Link, score: int)

  datatype Row = Row(parent: Id, ord: int, data: Data, audio: Audio)

  datatype WordRow = WordRow(kind: Kind, headword: string, frequency: Option<string>, mode: DialectMode,
    dialects: seq<Dialect>, status: Status, createdBy: Id, token: Token)

  type Rows = map<Key, Row>

  datatype DB = DB(words: map<Id, WordRow>, rows: Rows)

  /** Sense groups and pos tabs hang off the word itself. */
  predicate Top(t: Table) {
    t.Groups? || t.Pos?
  }

  function ParentTable(t: Table): Table
    requires !Top(t)
  {
    match t
    case Forms => Pos
    case Structs => Pos
    case Senses => Pos
    case Prons => Forms
    case Variants => Structs
    case Defs => Senses
    case Sents => Senses
    case Rels => Senses
  }

  function Depth(t: Table): nat {
    match t
    case Groups => 0
    case Pos => 0
    case Forms => 1
    case Structs => 1
    case Senses => 1
    case _ => 2
  }

  predicate Fits(t: Table, d: Data) {
    match t
    case Groups => d.GroupData?
    case Pos => d.PosData?
    case Forms => d.FormData?
    case Prons => d.PronData?
    case Structs => d.StructData?
    case Variants => d.VariantData?
    case Senses => d.SenseData?
    case Defs => d.DefData?
    case Sents => d.SentData?
    case Rels => d.RelData?
  }

  function Nullable(s: string): Option<string> {
    if s == "" then None else Some(s)
  }

  function OrBlank(s: Option<string>): string {
    if s.Some? then s.value else ""
  }

  // --- Nodes: one statement of a save each ---

  /** A node of a body; top-level nodes leave the parent to the entry they are saved under. */
  datatype Node = Node(table: Table, id: Id, parent: Id, ord: nat, data: Data)

  function KeyOf(n: Node): Key {
    Key(n.table, n.id)
  }

  function GroupN(i: nat, g: SenseGroup): Node {
    Node(Groups, g.id, NIL, i, GroupData(g.name))
  }

  function PosN(i: nat, p: POS): Node {
    Node(Pos, p.id, NIL, i, PosData(p.pos))
  }

  function FormN(pos: Id, i: nat, f: Form): Node {
    Node(Forms, f.id, pos, i, FormData(f.dialect, f.formType, f.spelling))
  }

  function PronN(form: Id, i: nat, p: Pronunciation): Node {
    Node(Prons, p.id, form, i, PronData(p.dictPhonetic, p.actualPron, p.style))
  }

  function StructN(pos: Id, i: nat, g: GrammarStructure): Node {
    Node(Structs, g.id, pos, i, StructData)
  }

  function VariantN(struct: Id, i: nat, v: GrammarVariant): Node {
    Node(Variants, v.id, struct, i, VariantData(v.dialect, v.content))
  }

  function SenseN(pos: Id, i: nat, s: Sense): Node {
    Node(Senses, s.id, pos, i, SenseData(s.subPos, s.level, s.group, Nullable(s.frequency), s.dependsOnContext))
  }

  function DefN(sense: Id, i: nat, d: Definition): Node {
    Node(Defs, d.id, sense, i, DefData(d.level, d.defType, d.text, d.structure))
  }

  function SentN(sense: Id, i: nat, t: Sentence): Node {
    Node(Sents, t.id, sense, i, SentData(t.sourceExample, t.text))
  }

  /** A relation as sent: only the two links of the target count. */
  function RelN(sense: Id, i: nat, r: Relation): Node {
    Node(Rels, r.id, sense, i, RelData(r.relation, Link(r.target.word, r.target.sense, "", ""), r.score))
  }

  // Sub-trees as node sequences; the first argument of each is the parent id.

  function GroupNodes(ctx: Id, i: nat, g: SenseGroup): seq<Node> { [GroupN(i, g)] }
  function PosNodes(ctx: Id, i: nat, p: POS): seq<Node> { [PosN(i, p)] }
  function PronNodes(form: Id, i: nat, p: Pronunciation): seq<Node> { [PronN(form, i, p)] }
  function VariantNodes(struct: Id, i: nat, v: GrammarVariant): seq<Node> { [VariantN(struct, i, v)] }
  function DefNodes(sense: Id, i: nat, d: Definition): seq<Node> { [DefN(sense, i, d)] }
  function SentNodes(sense: Id, i: nat, t: Sentence): seq<Node> { [SentN(sense, i, t)] }
  function RelNodes(sense: Id, i: nat, r: Relation): seq<Node> { [RelN(sense, i, r)] }

  function FormNodes(pos: Id, i: nat, f: Form): seq<Node> {
    [FormN(pos, i, f)] + Flat(f.id, f.pronunciations, PronNodes)
  }

  function StructNodes(pos: Id, i: nat, g: GrammarStructure): seq<Node> {
    [StructN(pos, i, g)] + Flat(g.id, g.variants, VariantNodes)
  }

  /** A sense with its definitions and sentences. */
  function SenseNodes(pos: Id, i: nat, s: Sense): seq<Node> {
    [SenseN(pos, i, s)] + Flat(s.id, s.definitions, DefNodes) + Flat(s.id, s.sentences, SentNodes)
  }

  function SenseRelNodes(pos: Id, i: nat, s: Sense): seq<Node> {
    Flat(s.id, s.relations, RelNodes)
  }

  function SenseDocNodes(pos: Id, i: nat, s: Sense): seq<Node> {
    SenseNodes(pos, i, s) + SenseRelNodes(pos, i, s)
  }

  function PosContentNodes(ctx: Id, i: nat, p: POS): seq<Node> {
    Flat(p.id, p.forms, FormNodes) + Flat(p.id, p.structures, StructNodes) + Flat(p.id, p.senses, SenseNodes)
  }

  function PosRelNodes(ctx: Id, i: nat, p: POS): seq<Node> {
    Flat(p.id, p.senses, SenseRelNodes)
  }

  function PosDocNodes(ctx: Id, i: nat, p: POS): seq<Node> {
    [PosN(i, p)] + Flat(p.id, p.forms, FormNodes) + Flat(p.id, p.structures, StructNodes)
    + Flat(p.id, p.senses, SenseDocNodes)
  }

  /** All nodes in document order, the order validation visits them. */
  function Doc(b: SaveInput): seq<Node> {
    Flat(NIL, b.groups, GroupNodes) + Flat(NIL, b.pos, PosDocNodes)
  }

  /** The first pass of a save: everything except relations, parents first. */
  function FirstPass(b: SaveInput): seq<Node> {
    Flat(NIL, b.groups, GroupNodes) + Flat(NIL, b.pos, PosNodes) + Flat(NIL, b.pos, PosContentNodes)
  }

  /** The second pass: relations, once every sense of the body exists. */
  function SecondPass(b: SaveInput): seq<Node> {
    Flat(NIL, b.pos, PosRelNodes)
  }

  lemma PassesAreDoc(b: SaveInput)
    ensures multiset(FirstPass(b) + SecondPass(b)) == multiset(Doc(b))
  {
    forall i: nat | i < |b.pos|
      ensures multiset(PosDocNodes(NIL, i, b.pos[i])) ==
        multiset(PosBoth(NIL, i, b.pos[i])) + multiset(PosRelNodes(NIL, i, b.pos[i]))
      ensures multiset(PosBoth(NIL, i, b.pos[i])) ==
        multiset(PosNodes(NIL, i, b.pos[i])) + multiset(PosContentNodes(NIL, i, b.pos[i]))
    {
      var p := b.pos[i];
      FlatSplit(p.id, p.senses, SenseDocNodes, SenseNodes, SenseRelNodes);
    }
    FlatSplit(NIL, b.pos, PosDocNodes, PosBoth, PosRelNodes);
    FlatSplit(NIL, b.pos, PosBoth, PosNodes, PosContentNodes);
  }

  function PosBoth(ctx: Id, i: nat, p: POS): seq<Node> {
    PosNodes(ctx, i, p) + PosContentNodes(ctx, i, p)
  }
}
