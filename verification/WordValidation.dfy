/**
 Structural validation of a save body (internal/word/service.go): the loops of the
 source against a declarative notion of a valid body.
 */
module WordValidation {
  import opened Basics
  import opened Text
  import opened Frequency
  import opened WordModel
  import opened WordTables

  // --- What a valid, normalized body is ---

  predicate ModeOk(mode: DialectMode, dialects: seq<Dialect>) {
    match mode
    case Unified => dialects == []
    case Distinguish =>
      && dialects != []
      && (forall i | 0 <= i < |dialects| :: dialects[i] == UK || dialects[i] == US)
      && (forall i, j | 0 <= i < j < |dialects| :: dialects[i] != dialects[j])
    case OtherMode(_) => false
  }

  /** The dialects an entry's nodes may use, uk before us. */
  function Allowed(mode: DialectMode, dialects: seq<Dialect>): seq<Dialect> {
    if mode == Unified then [Common]
    else (if UK in dialects then [UK] else []) + (if US in dialects then [US] else [])
  }

  function AllowedSet(mode: DialectMode, dialects: seq<Dialect>): set<Dialect> {
    set d | d in Allowed(mode, dialects)
  }

  predicate FrequencyOk(f: string) {
    f == "" || NormalizeFrequency(f) == Ok(f)
  }

  predicate ShortOk(s: string) {
    Trimmed(s) && |s| <= MAX_SHORT_FIELD
  }

  predicate StoredText(rt: RichText) {
    TextOk(rt) && NormalText(rt) == rt
  }

  predicate PronOk(p: Pronunciation) {
    !p.style.NoStyle? && !p.style.OtherStyle? && ShortOk(p.dictPhonetic) && ShortOk(p.actualPron)
  }

  predicate FormOk(allowed: set<Dialect>, f: Form) {
    && f.dialect in allowed && !f.formType.OtherFormType? && ShortOk(f.spelling)
    && forall i | 0 <= i < |f.pronunciations| :: PronOk(f.pronunciations[i])
  }

  predicate VariantOk(allowed: set<Dialect>, v: GrammarVariant) {
    v.dialect in allowed && StoredText(v.content)
  }

  predicate StructOk(allowed: set<Dialect>, g: GrammarStructure) {
    && (forall i | 0 <= i < |g.variants| :: VariantOk(allowed, g.variants[i]))
    && DistinctDialects(g.variants, |g.variants|)
  }

  /** The first k variants are in pairwise different dialects. */
  predicate DistinctDialects(vs: seq<GrammarVariant>, k: nat)
    requires k <= |vs|
  {
    forall i, j | 0 <= i < j < k :: vs[i].dialect != vs[j].dialect
  }

  predicate DefinitionOk(structs: set<Id>, d: Definition) {
    && !d.level.OtherLevel? && !d.defType.OtherDefType? && StoredText(d.text)
    && (d.structure.Some? ==> d.structure.value in structs)
  }

  predicate SentenceOk(t: Sentence) {
    t.text.Some? ==> StoredText(t.text.value)
  }

  predicate RelationOk(r: Relation) {
    && !r.relation.OtherRelation? && 0 <= r.score <= 100
    && (r.target.sense.Some? ==> r.target.word.Some?)
  }

  predicate SenseOk(groups: set<Id>, structs: set<Id>, s: Sense) {
    && !s.level.OtherLevel? && !s.subPos.OtherSubPos?
    && (s.group.Some? ==> s.group.value in groups) && FrequencyOk(s.frequency)
    && (forall i | 0 <= i < |s.definitions| :: DefinitionOk(structs, s.definitions[i]))
    && (forall i | 0 <= i < |s.sentences| :: SentenceOk(s.sentences[i]))
    && (forall i | 0 <= i < |s.relations| :: RelationOk(s.relations[i]))
  }

  function StructId(g: GrammarStructure): Id { g.id }
  function DialectOf(v: GrammarVariant): Dialect { v.dialect }
  function PronId(p: Pronunciation): Id { p.id }
  function VariantId(v: GrammarVariant): Id { v.id }
  function DefId(d: Definition): Id { d.id }
  function SentId(t: Sentence): Id { t.id }
  function RelId(r: Relation): Id { r.id }
  function GroupId(g: SenseGroup): Id { g.id }
  function PosValue(p: POS): PosTag { p.pos }

  function StructIds(gs: seq<GrammarStructure>): set<Id> {
    Keys(gs, |gs|, StructId)
  }

  function GroupIds(gs: seq<SenseGroup>): set<Id> {
    Keys(gs, |gs|, GroupId)
  }

  predicate PosOk(allowed: set<Dialect>, groups: set<Id>, p: POS) {
    && !p.pos.OtherPos?
    && (forall i | 0 <= i < |p.forms| :: FormOk(allowed, p.forms[i]))
    && (forall i | 0 <= i < |p.structures| :: StructOk(allowed, p.structures[i]))
    && (forall i | 0 <= i < |p.senses| :: SenseOk(groups, StructIds(p.structures), p.senses[i]))
  }

  predicate GroupOk(g: SenseGroup) {
    ShortOk(g.name)
  }

  /** Ids are present, unique across the whole body, and at most MAX_TREE_NODES. */
  predicate IdsOk(ns: seq<Node>) {
    && (forall i | 0 <= i < |ns| :: ns[i].id != NIL)
    && (forall i, j | 0 <= i < j < |ns| :: ns[i].id != ns[j].id)
    && |ns| <= MAX_TREE_NODES
  }

  /** The first k tabs are of pairwise different parts of speech. */
  predicate DistinctPos(ps: seq<POS>, k: nat)
    requires k <= |ps|
  {
    forall i, j | 0 <= i < j < k :: ps[i].pos != ps[j].pos
  }

  predicate GroupsOk(gs: seq<SenseGroup>) {
    forall i | 0 <= i < |gs| :: GroupOk(gs[i])
  }

  predicate TabsOk(allowed: set<Dialect>, groups: set<Id>, ps: seq<POS>) {
    forall i | 0 <= i < |ps| :: PosOk(allowed, groups, ps[i])
  }

  predicate NodesOk(b: SaveInput) {
    && GroupsOk(b.groups)
    && TabsOk(AllowedSet(b.mode, b.dialects), GroupIds(b.groups), b.pos)
    && DistinctPos(b.pos, |b.pos|)
    && IdsOk(Doc(b))
  }

  predicate Valid(b: SaveInput) {
    && b.base != ZERO_TIME
    && ModeOk(b.mode, b.dialects)
    && FrequencyOk(b.frequency)
    && NodesOk(b)
  }

  // --- Normalization ---

  function NormalFreq(f: string): string {
    match NormalizeFrequency(f)
    case Ok(r) => if f == "" then f else r
    case Err(_) => f
  }

  function NormalGroup(g: SenseGroup): SenseGroup {
    g.(name := TrimSpace(g.name))
  }

  function NormalPron(p: Pronunciation): Pronunciation {
    p.(style := if p.style.NoStyle? then NormalStyle else p.style,
       dictPhonetic := TrimSpace(p.dictPhonetic), actualPron := TrimSpace(p.actualPron))
  }

  function NormalProns(ps: seq<Pronunciation>): seq<Pronunciation> {
    Map(ps, NormalPron)
  }

  function NormalForm(f: Form): Form {
    f.(spelling := TrimSpace(f.spelling), pronunciations := NormalProns(f.pronunciations))
  }

  function NormalVariant(v: GrammarVariant): GrammarVariant {
    v.(content := NormalText(v.content))
  }

  function NormalStruct(g: GrammarStructure): GrammarStructure {
    g.(variants := Map(g.variants, NormalVariant))
  }

  function NormalDefinition(d: Definition): Definition {
    d.(text := NormalText(d.text))
  }

  function NormalSentence(t: Sentence): Sentence {
    if t.text.Some? then t.(text := Some(NormalText(t.text.value))) else t
  }

  /** Snapshots are server-written: whatever the client sent is dropped. */
  function NormalRelation(r: Relation): Relation {
    r.(target := Link(r.target.word, r.target.sense, "", ""))
  }

  function NormalSense(s: Sense): Sense {
    s.(frequency := NormalFreq(s.frequency),
       definitions := Map(s.definitions, NormalDefinition),
       sentences := Map(s.sentences, NormalSentence),
       relations := Map(s.relations, NormalRelation))
  }

  function NormalForms(fs: seq<Form>): seq<Form> {
    Map(fs, NormalForm)
  }

  function NormalStructs(gs: seq<GrammarStructure>): seq<GrammarStructure> {
    Map(gs, NormalStruct)
  }

  function NormalSenses(ss: seq<Sense>): seq<Sense> {
    Map(ss, NormalSense)
  }

  function NormalPos(p: POS): POS {
    p.(forms := NormalForms(p.forms), structures := NormalStructs(p.structures), senses := NormalSenses(p.senses))
  }

  function Normalized(b: SaveInput): SaveInput {
    b.(frequency := NormalFreq(b.frequency),
       groups := Map(b.groups, NormalGroup),
       pos := Map(b.pos, NormalPos))
  }

  // --- Claiming ids ---

  datatype Seen = Seen(ids: set<Id>)
  const EMPTY := Seen({})

  function ClaimOne(seen: Seen, id: Id): Option<Seen> {
    if id == NIL || id in seen.ids || |seen.ids| + 1 > MAX_TREE_NODES then None else Some(Seen(seen.ids + {id}))
  }

  function Claims(seen: Seen, ns: seq<Node>): Option<Seen> {
    if ns == [] then Some(seen)
    else
      match Claims(seen, ns[..|ns| - 1])
      case None => None
      case Some(s) => ClaimOne(s, ns[|ns| - 1].id)
  }

  lemma {:induction false} ClaimsConcat(seen: Seen, a: seq<Node>, b: seq<Node>)
    ensures Claims(seen, a + b) ==
      match Claims(seen, a) { case None => None case Some(s) => Claims(s, b) }
  {
    if b == [] {
      assert a + b == a;
    } else {
      assert (a + b)[..|a + b| - 1] == a + b[..|b| - 1];
      ClaimsConcat(seen, a, b[..|b| - 1]);
    }
  }

  lemma ClaimsSingle(seen: Seen, n: Node)
    ensures Claims(seen, [n]) == ClaimOne(seen, n.id)
  {
    assert [n][..0] == [];
  }

  /** A failure on a prefix is a failure on the whole. */
  lemma {:induction false} ClaimsPrefix<T>(seen: Seen, ctx: Id, s: seq<T>, i: nat, f: (Id, nat, T) -> seq<Node>)
    requires i <= |s| && Claims(seen, Flat(ctx, s[..i], f)).None?
    ensures Claims(seen, Flat(ctx, s, f)).None?
    decreases |s| - i
  {
    if i == |s| {
      assert s[..i] == s;
    } else {
      FlatStep(ctx, s, i, f);
      ClaimsConcat(seen, Flat(ctx, s[..i], f), f(ctx, i, s[i]));
      ClaimsPrefix(seen, ctx, s, i + 1, f);
    }
  }

  function Then(c: Option<Seen>, ns: seq<Node>): Option<Seen> {
    match c
    case None => None
    case Some(s) => Claims(s, ns)
  }

  function ThenOne(c: Option<Seen>, id: Id): Option<Seen> {
    match c
    case None => None
    case Some(s) => ClaimOne(s, id)
  }

  /** The claims of a list, element by element; once they fail they have failed for good. */
  lemma Trace<T>(seen: Seen, ctx: Id, s: seq<T>, f: (Id, nat, T) -> seq<Node>) returns (tr: seq<Option<Seen>>)
    ensures |tr| == |s| + 1 && tr[0] == Some(seen) && tr[|s|] == Claims(seen, Flat(ctx, s, f))
    ensures forall k: nat {:trigger s[k]} | k < |s| :: tr[k + 1] == Then(tr[k], f(ctx, k, s[k]))
    ensures forall k | 0 <= k <= |s| :: tr[k].None? ==> tr[|s|].None?
  {
    tr := seq(|s| + 1, k requires 0 <= k <= |s| => Claims(seen, Flat(ctx, s[..k], f)));
    FlatWhole(ctx, s, f);
    forall k: nat | k < |s| ensures tr[k + 1] == Then(tr[k], f(ctx, k, s[k])) {
      FlatStep(ctx, s, k, f);
      ClaimsConcat(seen, Flat(ctx, s[..k], f), f(ctx, k, s[k]));
    }
    forall k | 0 <= k <= |s| ensures tr[k].None? ==> tr[|s|].None? {
      if tr[k].None? {
        ClaimsPrefix(seen, ctx, s, k, f);
      }
    }
  }

  /** As Trace, for elements that are one node each. */
  lemma LeafTrace<T>(seen: Seen, ctx: Id, s: seq<T>, f: (Id, nat, T) -> seq<Node>, id: T -> Id)
      returns (tr: seq<Option<Seen>>)
    requires forall k: nat | k < |s| :: |f(ctx, k, s[k])| == 1 && f(ctx, k, s[k])[0].id == id(s[k])
    ensures |tr| == |s| + 1 && tr[0] == Some(seen) && tr[|s|] == Claims(seen, Flat(ctx, s, f))
    ensures forall k: nat {:trigger s[k]} | k < |s| :: tr[k + 1] == ThenOne(tr[k], id(s[k]))
    ensures forall k | 0 <= k <= |s| :: tr[k].None? ==> tr[|s|].None?
  {
    tr := Trace(seen, ctx, s, f);
    forall k: nat | k < |s| ensures tr[k + 1] == ThenOne(tr[k], id(s[k])) {
      var ns := f(ctx, k, s[k]);
      if tr[k].Some? {
        ClaimsSingle(tr[k].value, ns[0]);
        assert ns == [ns[0]];
      }
    }
  }

  predicate HasId(ns: seq<Node>, x: Id) {
    exists i | 0 <= i < |ns| :: ns[i].id == x
  }

  lemma HasIdSnoc(ns: seq<Node>, x: Id)
    requires ns != []
    ensures HasId(ns, x) <==> HasId(ns[..|ns| - 1], x) || x == ns[|ns| - 1].id
  {
    var init := ns[..|ns| - 1];
    if HasId(init, x) {
      var i :| 0 <= i < |init| && init[i].id == x;
      assert ns[i].id == x;
    }
    assert x == ns[|ns| - 1].id ==> HasId(ns, x);
    if HasId(ns, x) && x != ns[|ns| - 1].id {
      var i :| 0 <= i < |ns| && ns[i].id == x;
      assert init[i].id == x;
    }
  }

  /** Unique, non-nil ids, one more at a time. */
  lemma IdsOkSnoc(ns: seq<Node>)
    requires ns != []
    ensures IdsOk(ns) <==>
      var init, last := ns[..|ns| - 1], ns[|ns| - 1];
      IdsOk(init) && last.id != NIL && !HasId(init, last.id) && |ns| <= MAX_TREE_NODES
  {
    var init, last := ns[..|ns| - 1], ns[|ns| - 1];
    assert forall i | 0 <= i < |init| :: ns[i] == init[i];
    if IdsOk(ns) {
      assert forall i | 0 <= i < |init| :: ns[i].id != ns[|ns| - 1].id;
      assert !HasId(init, last.id);
    }
    if IdsOk(init) && last.id != NIL && !HasId(init, last.id) && |ns| <= MAX_TREE_NODES {
      forall i, j | 0 <= i < j < |ns| ensures ns[i].id != ns[j].id {
        assert init[i].id == ns[i].id;
      }
    }
  }

  lemma {:induction false} ClaimedIds(ns: seq<Node>)
    requires Claims(EMPTY, ns).Some?
    ensures |Claims(EMPTY, ns).value.ids| == |ns|
    ensures forall x :: x in Claims(EMPTY, ns).value.ids <==> HasId(ns, x)
  {
    if ns == [] {
    } else {
      ClaimedIds(ns[..|ns| - 1]);
      forall x ensures x in Claims(EMPTY, ns).value.ids <==> HasId(ns, x) {
        HasIdSnoc(ns, x);
      }
    }
  }

  lemma {:induction false} ClaimsExact(ns: seq<Node>)
    ensures Claims(EMPTY, ns).Some? <==> IdsOk(ns)
  {
    if ns == [] {
    } else {
      var init := ns[..|ns| - 1];
      ClaimsExact(init);
      IdsOkSnoc(ns);
      if Claims(EMPTY, init).Some? {
        ClaimedIds(init);
      }
    }
  }

  // --- The loops of validateTree ---

  method ClaimId(seen: Seen, id: Id) returns (r: Option<Seen>)
    ensures r == ClaimOne(seen, id)
  {
    if id == NIL {
      return None;
    }
    if id in seen.ids {
      return None;
    }
    var next := seen.ids + {id};
    if |next| > MAX_TREE_NODES {
      return None;
    }
    return Some(Seen(next));
  }

  method AllowedDialects(mode: DialectMode, dialects: seq<Dialect>) returns (r: Option<seq<Dialect>>)
    ensures r.Some? <==> ModeOk(mode, dialects)
    ensures r.Some? ==> r.value == Allowed(mode, dialects)
    ensures r.Some? && mode == Unified ==> r.value == [Common]
    ensures r.Some? && mode == Distinguish ==>
      && (forall d :: d in r.value <==> d in dialects)
      && (forall i, j | 0 <= i < j < |r.value| :: r.value[i] == UK && r.value[j] == US)
  {
    match mode {
      case Unified =>
        if |dialects| != 0 {
          return None;
        }
        return Some([Common]);
      case Distinguish =>
        if |dialects| == 0 {
          return None;
        }
        var seen: set<Dialect> := {};
        for i := 0 to |dialects|
          invariant seen == set j | 0 <= j < i :: dialects[j]
          invariant forall j | 0 <= j < i :: dialects[j] == UK || dialects[j] == US
          invariant forall j, k | 0 <= j < k < i :: dialects[j] != dialects[k]
        {
          var d := dialects[i];
          if d != UK && d != US {
            return None;
          }
          if d in seen {
            return None;
          }
          seen := seen + {d};
        }
        var out: seq<Dialect> := [];
        for i := 0 to 2
          invariant out == (if i > 0 && UK in seen then [UK] else []) + (if i > 1 && US in seen then [US] else [])
        {
          var d := [UK, US][i];
          if d in seen {
            out := out + [d];
          }
        }
        return Some(out);
      case OtherMode(_) =>
        return None;
    }
  }

  // Checks of one node's own fields.

  method CheckPron(p: Pronunciation) returns (ok: bool)
    ensures ok <==> PronOk(NormalPron(p))
  {
    var style := if p.style == NoStyle then NormalStyle else p.style;
    if style.OtherStyle? {
      return false;
    }
    TrimSpaceRemovesEnds(p.dictPhonetic);
    TrimSpaceRemovesEnds(p.actualPron);
    var q := p.(style := style, dictPhonetic := TrimSpace(p.dictPhonetic), actualPron := TrimSpace(p.actualPron));
    if |q.dictPhonetic| > MAX_SHORT_FIELD {
      return false;
    }
    if |q.actualPron| > MAX_SHORT_FIELD {
      return false;
    }
    return true;
  }

  method CheckGroup(g: SenseGroup) returns (ok: bool)
    ensures ok <==> GroupOk(NormalGroup(g))
  {
    TrimSpaceRemovesEnds(g.name);
    return |TrimSpace(g.name)| <= MAX_SHORT_FIELD;
  }

  lemma NormalTextOk(rt: RichText)
    ensures StoredText(NormalText(rt)) <==> TextOk(rt)
  {
  }

  method CheckDefinition(structs: set<Id>, d: Definition) returns (ok: bool)
    ensures ok <==> DefinitionOk(structs, NormalDefinition(d))
  {
    NormalTextOk(d.text);
    if d.level.OtherLevel? {
      return false;
    }
    if d.defType.OtherDefType? {
      return false;
    }
    var textOk := ValidateText(d.text);
    if !textOk {
      return false;
    }
    if d.structure.Some? && d.structure.value !in structs {
      return false;
    }
    return true;
  }

  method CheckSentence(t: Sentence) returns (ok: bool)
    ensures ok <==> SentenceOk(NormalSentence(t))
  {
    if t.text.Some? {
      NormalTextOk(t.text.value);
      var textOk := ValidateText(t.text.value);
      if !textOk {
        return false;
      }
      return true;
    }
    return true;
  }

  method CheckRelation(q: Relation) returns (ok: bool)
    ensures ok <==> RelationOk(NormalRelation(q))
  {
    if q.relation.OtherRelation? {
      return false;
    }
    if q.target.word.None? && q.target.sense.Some? {
      return false;
    }
    if q.score < 0 || q.score > 100 {
      return false;
    }
    return true;
  }

  method CheckVariant(allowed: set<Dialect>, v: GrammarVariant) returns (ok: bool)
    ensures ok <==> VariantOk(allowed, NormalVariant(v))
  {
    NormalTextOk(v.content);
    if v.dialect !in allowed {
      return false;
    }
    var textOk := ValidateText(v.content);
    if !textOk {
      return false;
    }
    return true;
  }

  method ValidateProns(seen: Seen, ctx: Id, ps: seq<Pronunciation>)
      returns (r: Option<Seen>)
    ensures var ns := Map(ps, NormalPron); r.Some? <==>
      (forall j | 0 <= j < |ns| :: PronOk(ns[j])) && Claims(seen, Flat(ctx, ns, PronNodes)).Some?
    ensures var ns := Map(ps, NormalPron); r.Some? ==> r.value == Claims(seen, Flat(ctx, ns, PronNodes)).value
  {
    hide PronOk, TrimSpace, Claims, ClaimOne, Flat, Map;
    ghost var ns := Map(ps, NormalPron);
    ghost var tr := LeafTrace(seen, ctx, ns, PronNodes, PronId);
    var c := Some(seen);
    for k := 0 to |ps|
      invariant forall j | 0 <= j < k :: PronOk(ns[j])
      invariant c.Some? && tr[k] == c
    {
      MapAt(ps, NormalPron, k);
      var p := ps[k];
      assert tr[k + 1] == ThenOne(tr[k], ns[k].id);
      c := ClaimId(c.value, p.id);
      if c.None? {
        return None;
      }
      var ok := CheckPron(p);
      if !ok {
        return None;
      }
    }
    return Some(c.value);
  }

  method ValidateForm(allowed: set<Dialect>, seen: Seen, ctx: Id, i: nat, f: Form)
      returns (r: Option<Seen>)
    ensures var n := NormalForm(f);
      r == if FormOk(allowed, n) then Claims(seen, FormNodes(ctx, i, n)) else None
  {
    ghost var n := NormalForm(f);
    ClaimsSingle(seen, FormN(ctx, i, n));
    ClaimsConcat(seen, [FormN(ctx, i, n)], Flat(n.id, n.pronunciations, PronNodes));
    var c := ClaimId(seen, f.id);
    if c.None? {
      return None;
    }
    if f.dialect !in allowed {
      return None;
    }
    if f.formType.OtherFormType? {
      return None;
    }
    var spelling := TrimSpace(f.spelling);
    TrimSpaceRemovesEnds(f.spelling);
    if |spelling| > MAX_SHORT_FIELD {
      return None;
    }
    var prons := ValidateProns(c.value, f.id, f.pronunciations);
    return prons;
  }

  /** No dialect twice in one structure; the source tests this as it visits each variant. */
  method CheckDistinctDialects(vs: seq<GrammarVariant>) returns (ok: bool)
    ensures ok <==> DistinctDialects(vs, |vs|)
  {
    var dialSeen: set<Dialect> := {};
    for k := 0 to |vs|
      invariant dialSeen == Keys(vs, k, DialectOf)
      invariant DistinctDialects(vs, k)
    {
      InKeys(vs, k, DialectOf, vs[k].dialect);
      if vs[k].dialect in dialSeen {
        return false;
      }
      dialSeen := dialSeen + {vs[k].dialect};
    }
    return true;
  }

  method ValidateVariants(allowed: set<Dialect>, seen: Seen, ctx: Id, vs: seq<GrammarVariant>) returns (r: Option<Seen>)
    ensures var ns := Map(vs, NormalVariant); r.Some? <==>
      (forall j | 0 <= j < |ns| :: VariantOk(allowed, ns[j])) && Claims(seen, Flat(ctx, ns, VariantNodes)).Some?
    ensures var ns := Map(vs, NormalVariant); r.Some? ==> r.value == Claims(seen, Flat(ctx, ns, VariantNodes)).value
  {
    hide VariantOk, NormalText, Claims, ClaimOne, Flat, Map;
    ghost var ns := Map(vs, NormalVariant);
    ghost var tr := LeafTrace(seen, ctx, ns, VariantNodes, VariantId);
    var c := Some(seen);
    for k := 0 to |vs|
      invariant forall j | 0 <= j < k :: VariantOk(allowed, ns[j])
      invariant c.Some? && tr[k] == c
    {
      MapAt(vs, NormalVariant, k);
      assert tr[k + 1] == ThenOne(tr[k], ns[k].id);
      c := ClaimId(c.value, vs[k].id);
      if c.None? {
        return None;
      }
      var ok := CheckVariant(allowed, vs[k]);
      if !ok {
        return None;
      }
    }
    return Some(c.value);
  }

  lemma SameDialects(vs: seq<GrammarVariant>)
    ensures DistinctDialects(vs, |vs|) <==> DistinctDialects(Map(vs, NormalVariant), |vs|)
  {
    forall i | 0 <= i < |vs| ensures Map(vs, NormalVariant)[i].dialect == vs[i].dialect {
      MapAt(vs, NormalVariant, i);
    }
  }

  method ValidateStruct(allowed: set<Dialect>, seen: Seen, ctx: Id, i: nat, g: GrammarStructure)
      returns (r: Option<Seen>)
    ensures var n := NormalStruct(g);
      r == if StructOk(allowed, n) then Claims(seen, StructNodes(ctx, i, n)) else None
  {
    ghost var n := NormalStruct(g);
    ClaimsSingle(seen, StructN(ctx, i, n));
    ClaimsConcat(seen, [StructN(ctx, i, n)], Flat(n.id, n.variants, VariantNodes));
    var c := ClaimId(seen, g.id);
    if c.None? {
      return None;
    }
    var distinct := CheckDistinctDialects(g.variants);
    SameDialects(g.variants);
    if !distinct {
      return None;
    }
    var variants := ValidateVariants(allowed, c.value, g.id, g.variants);
    return variants;
  }

  method ValidateDefinitions(structs: set<Id>, seen: Seen, ctx: Id, ds: seq<Definition>)
      returns (r: Option<Seen>)
    ensures var ns := Map(ds, NormalDefinition); r.Some? <==>
      (forall j | 0 <= j < |ns| :: DefinitionOk(structs, ns[j])) && Claims(seen, Flat(ctx, ns, DefNodes)).Some?
    ensures var ns := Map(ds, NormalDefinition); r.Some? ==> r.value == Claims(seen, Flat(ctx, ns, DefNodes)).value
  {
    hide DefinitionOk, NormalText, Claims, ClaimOne, Flat, Map;
    ghost var ns := Map(ds, NormalDefinition);
    ghost var tr := LeafTrace(seen, ctx, ns, DefNodes, DefId);
    var c := Some(seen);
    for k := 0 to |ds|
      invariant forall j | 0 <= j < k :: DefinitionOk(structs, ns[j])
      invariant c.Some? && tr[k] == c
    {
      MapAt(ds, NormalDefinition, k);
      var d := ds[k];
      assert tr[k + 1] == ThenOne(tr[k], ns[k].id);
      c := ClaimId(c.value, d.id);
      if c.None? {
        return None;
      }
      var ok := CheckDefinition(structs, d);
      if !ok {
        return None;
      }
    }
    return Some(c.value);
  }

  method ValidateSentences(seen: Seen, ctx: Id, ts: seq<Sentence>)
      returns (r: Option<Seen>)
    ensures var ns := Map(ts, NormalSentence); r.Some? <==>
      (forall j | 0 <= j < |ns| :: SentenceOk(ns[j])) && Claims(seen, Flat(ctx, ns, SentNodes)).Some?
    ensures var ns := Map(ts, NormalSentence); r.Some? ==> r.value == Claims(seen, Flat(ctx, ns, SentNodes)).value
  {
    hide SentenceOk, NormalText, Claims, ClaimOne, Flat, Map;
    ghost var ns := Map(ts, NormalSentence);
    ghost var tr := LeafTrace(seen, ctx, ns, SentNodes, SentId);
    var c := Some(seen);
    for k := 0 to |ts|
      invariant forall j | 0 <= j < k :: SentenceOk(ns[j])
      invariant c.Some? && tr[k] == c
    {
      MapAt(ts, NormalSentence, k);
      var t := ts[k];
      assert tr[k + 1] == ThenOne(tr[k], ns[k].id);
      c := ClaimId(c.value, t.id);
      if c.None? {
        return None;
      }
      var ok := CheckSentence(t);
      if !ok {
        return None;
      }
    }
    return Some(c.value);
  }

  method ValidateRelations(seen: Seen, ctx: Id, rs: seq<Relation>)
      returns (r: Option<Seen>)
    ensures var ns := Map(rs, NormalRelation); r.Some? <==>
      (forall j | 0 <= j < |ns| :: RelationOk(ns[j])) && Claims(seen, Flat(ctx, ns, RelNodes)).Some?
    ensures var ns := Map(rs, NormalRelation); r.Some? ==> r.value == Claims(seen, Flat(ctx, ns, RelNodes)).value
  {
    hide RelationOk, Claims, ClaimOne, Flat, Map;
    ghost var ns := Map(rs, NormalRelation);
    ghost var tr := LeafTrace(seen, ctx, ns, RelNodes, RelId);
    var c := Some(seen);
    for k := 0 to |rs|
      invariant forall j | 0 <= j < k :: RelationOk(ns[j])
      invariant c.Some? && tr[k] == c
    {
      MapAt(rs, NormalRelation, k);
      var q := rs[k];
      assert tr[k + 1] == ThenOne(tr[k], ns[k].id);
      c := ClaimId(c.value, q.id);
      if c.None? {
        return None;
      }
      var ok := CheckRelation(q);
      if !ok {
        return None;
      }
    }
    return Some(c.value);
  }

  lemma NormalFreqOk(f: string)
    ensures FrequencyOk(NormalFreq(f)) <==> f == "" || NormalizeFrequency(f).Ok?
  {
    if f != "" && NormalizeFrequency(f).Ok? {
      Idempotent(f);
    }
  }

  lemma ClaimsSense(seen: Seen, ctx: Id, i: nat, s: Sense)
    ensures Claims(seen, SenseDocNodes(ctx, i, s)) ==
      Then(Then(Then(ClaimOne(seen, s.id), Flat(s.id, s.definitions, DefNodes)),
        Flat(s.id, s.sentences, SentNodes)), Flat(s.id, s.relations, RelNodes))
  {
    var self := [SenseN(ctx, i, s)];
    var ds, ts := Flat(s.id, s.definitions, DefNodes), Flat(s.id, s.sentences, SentNodes);
    ClaimsSingle(seen, SenseN(ctx, i, s));
    ClaimsConcat(seen, self, ds);
    ClaimsConcat(seen, self + ds, ts);
    ClaimsConcat(seen, self + ds + ts, Flat(s.id, s.relations, RelNodes));
  }

  method ValidateSense(groups: set<Id>, structs: set<Id>, seen: Seen, ctx: Id, i: nat, s: Sense)
      returns (r: Option<Seen>)
    ensures var n := NormalSense(s);
      r == if SenseOk(groups, structs, n) then Claims(seen, SenseDocNodes(ctx, i, n)) else None
  {
    ghost var n := NormalSense(s);
    ClaimsSense(seen, ctx, i, n);
    var c := ClaimId(seen, s.id);
    if c.None? {
      return None;
    }
    if s.level.OtherLevel? {
      return None;
    }
    if s.subPos.OtherSubPos? {
      return None;
    }
    if s.group.Some? && s.group.value !in groups {
      return None;
    }
    NormalFreqOk(s.frequency);
    if s.frequency != "" {
      var norm := NormalizeFrequency(s.frequency);
      if norm.Err? {
        return None;
      }
    }
    var defs := ValidateDefinitions(structs, c.value, s.id, s.definitions);
    if defs.None? {
      return None;
    }
    var sents := ValidateSentences(defs.value, s.id, s.sentences);
    if sents.None? {
      return None;
    }
    var rels := ValidateRelations(sents.value, s.id, s.relations);
    return rels;
  }

  lemma ClaimsPos(seen: Seen, i: nat, p: POS)
    ensures Claims(seen, PosDocNodes(NIL, i, p)) ==
      Then(Then(Then(ClaimOne(seen, p.id), Flat(p.id, p.forms, FormNodes)),
        Flat(p.id, p.structures, StructNodes)), Flat(p.id, p.senses, SenseDocNodes))
  {
    var self := [PosN(i, p)];
    var fs, gs := Flat(p.id, p.forms, FormNodes), Flat(p.id, p.structures, StructNodes);
    ClaimsSingle(seen, PosN(i, p));
    ClaimsConcat(seen, self, fs);
    ClaimsConcat(seen, self + fs, gs);
    ClaimsConcat(seen, self + fs + gs, Flat(p.id, p.senses, SenseDocNodes));
  }

  method ValidateForms(allowed: set<Dialect>, seen: Seen, ctx: Id, fs: seq<Form>)
      returns (r: Option<Seen>)
    ensures var ns := Map(fs, NormalForm); r.Some? <==>
      (forall j | 0 <= j < |ns| :: FormOk(allowed, ns[j])) && Claims(seen, Flat(ctx, ns, FormNodes)).Some?
    ensures var ns := Map(fs, NormalForm); r.Some? ==> r.value == Claims(seen, Flat(ctx, ns, FormNodes)).value
  {
    hide FormOk, NormalForm, FormNodes, Claims, Flat, Map;
    ghost var ns := Map(fs, NormalForm);
    ghost var tr := Trace(seen, ctx, ns, FormNodes);
    var c := seen;
    for k := 0 to |fs|
      invariant forall j | 0 <= j < k :: FormOk(allowed, ns[j])
      invariant tr[k] == Some(c)
    {
      MapAt(fs, NormalForm, k);
      assert tr[k + 1] == Claims(c, FormNodes(ctx, k, ns[k]));
      var q := ValidateForm(allowed, c, ctx, k, fs[k]);
      if q.None? {
        return None;
      }
      c := q.value;
    }
    return Some(c);
  }

  method ValidateStructs(allowed: set<Dialect>, seen: Seen, ctx: Id, gs: seq<GrammarStructure>) returns (r: Option<Seen>)
    ensures var ns := Map(gs, NormalStruct); r.Some? <==>
      (forall j | 0 <= j < |ns| :: StructOk(allowed, ns[j])) && Claims(seen, Flat(ctx, ns, StructNodes)).Some?
    ensures var ns := Map(gs, NormalStruct); r.Some? ==> r.value == Claims(seen, Flat(ctx, ns, StructNodes)).value
  {
    hide StructOk, NormalStruct, StructNodes, Claims, Flat, Map;
    ghost var ns := Map(gs, NormalStruct);
    ghost var tr := Trace(seen, ctx, ns, StructNodes);
    var c := seen;
    for k := 0 to |gs|
      invariant forall j | 0 <= j < k :: StructOk(allowed, ns[j])
      invariant tr[k] == Some(c)
    {
      MapAt(gs, NormalStruct, k);
      assert tr[k + 1] == Claims(c, StructNodes(ctx, k, ns[k]));
      var q := ValidateStruct(allowed, c, ctx, k, gs[k]);
      if q.None? {
        return None;
      }
      c := q.value;
    }
    return Some(c);
  }

  /** The ids that definitions of the tab may refer to. */
  method CollectStructIds(gs: seq<GrammarStructure>) returns (structs: set<Id>)
    ensures var ns := Map(gs, NormalStruct); structs == StructIds(ns)
  {
    ghost var ns := Map(gs, NormalStruct);
    structs := {};
    for k := 0 to |gs|
      invariant structs == Keys(ns, k, StructId)
    {
      MapAt(gs, NormalStruct, k);
      structs := structs + {gs[k].id};
    }
  }

  method ValidateSenses(groups: set<Id>, structs: set<Id>, seen: Seen, ctx: Id, ss: seq<Sense>)
      returns (r: Option<Seen>)
    ensures var ns := Map(ss, NormalSense); r.Some? <==>
      (forall j | 0 <= j < |ns| :: SenseOk(groups, structs, ns[j])) && Claims(seen, Flat(ctx, ns, SenseDocNodes)).Some?
    ensures var ns := Map(ss, NormalSense); r.Some? ==> r.value == Claims(seen, Flat(ctx, ns, SenseDocNodes)).value
  {
    hide SenseOk, NormalSense, SenseDocNodes, Claims, Flat, Map;
    ghost var ns := Map(ss, NormalSense);
    ghost var tr := Trace(seen, ctx, ns, SenseDocNodes);
    var c := seen;
    for k := 0 to |ss|
      invariant forall j | 0 <= j < k :: SenseOk(groups, structs, ns[j])
      invariant tr[k] == Some(c)
    {
      MapAt(ss, NormalSense, k);
      assert tr[k + 1] == Claims(c, SenseDocNodes(ctx, k, ns[k]));
      var q := ValidateSense(groups, structs, c, ctx, k, ss[k]);
      if q.None? {
        return None;
      }
      c := q.value;
    }
    return Some(c);
  }

  /** One pos tab; the caller has checked that its value is not a duplicate. */
  method ValidatePos(allowed: set<Dialect>, groups: set<Id>, seen: Seen, i: nat, p: POS)
      returns (r: Option<Seen>)
    ensures var n := NormalPos(p);
      r == if PosOk(allowed, groups, n) then Claims(seen, PosDocNodes(NIL, i, n)) else None
  {
    ghost var n := NormalPos(p);
    ClaimsPos(seen, i, n);
    var c := ClaimId(seen, p.id);
    if c.None? {
      return None;
    }
    if p.pos.OtherPos? {
      return None;
    }
    var forms := ValidateForms(allowed, c.value, p.id, p.forms);
    if forms.None? {
      return None;
    }
    var structures := ValidateStructs(allowed, forms.value, p.id, p.structures);
    if structures.None? {
      return None;
    }
    var structs := CollectStructIds(p.structures);
    var senses := ValidateSenses(groups, structs, structures.value, p.id, p.senses);
    return senses;
  }

  method ValidateGroups(gs: seq<SenseGroup>)
      returns (r: Option<Seen>, groups: set<Id>)
    ensures var ns := Map(gs, NormalGroup); r.Some? <==> GroupsOk(ns) && Claims(EMPTY, Flat(NIL, ns, GroupNodes)).Some?
    ensures var ns := Map(gs, NormalGroup); r.Some? ==> r.value == Claims(EMPTY, Flat(NIL, ns, GroupNodes)).value && groups == GroupIds(ns)
  {
    hide GroupOk, TrimSpace, Claims, ClaimOne, Flat, Map;
    ghost var ns := Map(gs, NormalGroup);
    ghost var tr := LeafTrace(EMPTY, NIL, ns, GroupNodes, GroupId);
    var c: Option<Seen> := Some(EMPTY);
    groups := {};
    for k := 0 to |gs|
      invariant forall j | 0 <= j < k :: GroupOk(ns[j])
      invariant c.Some? && tr[k] == c
      invariant groups == Keys(ns, k, GroupId)
    {
      MapAt(gs, NormalGroup, k);
      assert tr[k + 1] == ThenOne(tr[k], ns[k].id);
      c := ClaimId(c.value, gs[k].id);
      if c.None? {
        r := None;
        return;
      }
      var ok := CheckGroup(gs[k]);
      if !ok {
        r := None;
        return;
      }
      groups := groups + {gs[k].id};
    }
    r := Some(c.value);
  }

  /** No part of speech twice; the source tests this as it visits each tab. */
  method CheckDistinctTabs(ps: seq<POS>) returns (ok: bool)
    ensures ok <==> DistinctPos(ps, |ps|)
  {
    var posSeen: set<PosTag> := {};
    for k := 0 to |ps|
      invariant posSeen == Keys(ps, k, PosValue)
      invariant DistinctPos(ps, k)
    {
      InKeys(ps, k, PosValue, ps[k].pos);
      if ps[k].pos in posSeen {
        return false;
      }
      posSeen := posSeen + {ps[k].pos};
    }
    return true;
  }

  method ValidateTabs(allowed: set<Dialect>, groups: set<Id>, seen: Seen, ps: seq<POS>)
      returns (r: Option<Seen>)
    ensures var ns := Map(ps, NormalPos); r.Some? <==> TabsOk(allowed, groups, ns) && Claims(seen, Flat(NIL, ns, PosDocNodes)).Some?
    ensures var ns := Map(ps, NormalPos); r.Some? ==> r == Claims(seen, Flat(NIL, ns, PosDocNodes))
  {
    hide PosOk, NormalPos, PosDocNodes, Claims, Flat, Map;
    ghost var ns := Map(ps, NormalPos);
    ghost var tr := Trace(seen, NIL, ns, PosDocNodes);
    var c := seen;
    for k := 0 to |ps|
      invariant forall j | 0 <= j < k :: PosOk(allowed, groups, ns[j])
      invariant tr[k] == Some(c)
    {
      MapAt(ps, NormalPos, k);
      assert tr[k + 1] == Claims(c, PosDocNodes(NIL, k, ns[k]));
      var q := ValidatePos(allowed, groups, c, k, ps[k]);
      if q.None? {
        return None;
      }
      c := q.value;
    }
    return Some(c);
  }

  lemma DocClaims(b: SaveInput)
    ensures IdsOk(Doc(b)) <==>
      Then(Claims(EMPTY, Flat(NIL, b.groups, GroupNodes)), Flat(NIL, b.pos, PosDocNodes)).Some?
  {
    ClaimsExact(Doc(b));
    ClaimsConcat(EMPTY, Flat(NIL, b.groups, GroupNodes), Flat(NIL, b.pos, PosDocNodes));
  }

  lemma SameTabs(b: SaveInput)
    ensures DistinctPos(b.pos, |b.pos|) <==> DistinctPos(Normalized(b).pos, |b.pos|)
  {
    forall i | 0 <= i < |b.pos| ensures Normalized(b).pos[i].pos == b.pos[i].pos {
      MapAt(b.pos, NormalPos, i);
    }
  }

  method ValidateNodes(b: SaveInput, dialects: seq<Dialect>) returns (ok: bool)
    requires dialects == Allowed(b.mode, b.dialects)
    ensures ok <==> NodesOk(Normalized(b))
  {
    ghost var n := Normalized(b);
    DocClaims(n);
    var allowed := set d | d in dialects;
    var gs, groups := ValidateGroups(b.groups);
    if gs.None? {
      return false;
    }
    var distinct := CheckDistinctTabs(b.pos);
    SameTabs(b);
    if !distinct {
      return false;
    }
    var ps := ValidateTabs(allowed, groups, gs.value, b.pos);
    return ps.Some?;
  }
}
