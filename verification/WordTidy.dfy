/**
 What validation does to a body it accepts (internal/word/service.go, validateTree), said of the body
 and the result place by place, and that nothing else could be said to do the same.
 */
module WordTidy {
  import opened Basics
  import opened Text
  import opened Frequency
  import opened WordModel
  import opened WordTables
  import opened WordValidation

  // --- Text ---

  predicate AllSpace(s: string) {
    forall i | 0 <= i < |s| :: IsSpace(s[i])
  }

  ghost predicate Padded(s: string, a: string, t: string, b: string) {
    s == a + t + b && AllSpace(a) && AllSpace(b)
  }

  /** t is s without the white space around it. */
  ghost predicate Stripped(s: string, t: string) {
    Trimmed(t) && exists a, b :: Padded(s, a, t, b)
  }

  lemma IsStripped(s: string)
    ensures Stripped(s, TrimSpace(s))
  {
    TrimSpaceRemovesEnds(s);
    var a, b :| TrimmedOff(s, a, b);
    assert Padded(s, a, TrimSpace(s), b);
  }

  lemma StrippedOnce(s: string, t: string, u: string)
    requires Stripped(s, t) && Stripped(s, u)
    ensures t == u
  {
    var a, b :| Padded(s, a, t, b);
    var c, d :| Padded(s, c, u, d);
    if t != "" {
      Overlaps(s, a, t, b, c, u, d);
    }
    if u != "" {
      Overlaps(s, c, u, d, a, t, b);
    }
    if t != "" && u != "" {
      assert t == s[|a|..|a| + |t|] && u == s[|c|..|c| + |u|];
    }
  }

  /** Text with ends that are no space lies within any other reading. */
  lemma Overlaps(s: string, a: string, t: string, b: string, c: string, u: string, d: string)
    requires Padded(s, a, t, b) && Padded(s, c, u, d) && Trimmed(t) && t != ""
    ensures |c| <= |a| && |a| + |t| <= |c| + |u|
  {
    assert s[|a|] == t[0] && s[|a| + |t| - 1] == t[|t| - 1];
    PadIsSpace(s, c, u, d);
    hide Padded, IsSpace;
  }

  lemma PadIsSpace(s: string, c: string, u: string, d: string)
    requires Padded(s, c, u, d)
    ensures |s| == |c| + |u| + |d|
    ensures forall i | 0 <= i < |s| && (i < |c| || i >= |c| + |u|) :: IsSpace(s[i])
  {
    hide IsSpace;
    forall i | 0 <= i < |s| && (i < |c| || i >= |c| + |u|) ensures IsSpace(s[i]) {
      if i < |c| {
        assert s[i] == c[i];
      } else {
        assert s[i] == d[i - |c| - |u|];
      }
    }
  }

  /** The same marked text; missing marks are read as none. */
  predicate SameText(rt: RichText, ru: RichText) {
    && ru.version == rt.version && ru.text == rt.text
    && ru.spans == Some(if rt.spans.Some? then rt.spans.value else [])
    && ru.liaisons == Some(if rt.liaisons.Some? then rt.liaisons.value else [])
  }

  /** The same percent value, or none at all. */
  ghost predicate SamePercent(f: string, g: string) {
    if f == "" then g == "" else exists v: nat :: v <= LIMIT && Denotes(f, v) && Denotes(g, v)
  }

  lemma IsSamePercent(f: string)
    requires FrequencyOk(NormalFreq(f))
    ensures SamePercent(f, NormalFreq(f))
  {
    if f != "" {
      assert NormalizeFrequency(f).Ok?;
      AcceptsExactly(f);
      var v: nat :| Denotes(f, v) && v <= LIMIT;
      KeepsValue(f, v);
    }
  }

  lemma SamePercentOnce(f: string, g: string)
    requires SamePercent(f, g) && FrequencyOk(g)
    ensures g == NormalFreq(f)
  {
    if f != "" {
      var v: nat :| v <= LIMIT && Denotes(f, v) && Denotes(g, v);
      AcceptsExactly(f);
      if g == "" {
        NothingDenotes(v);
      }
      SameStringIffSameValue(f, g, v, v);
    }
  }

  lemma NothingDenotes(v: nat)
    ensures !Denotes("", v)
  {
    TrimmedFixed("");
  }

  // --- Nodes: p as sent, q as accepted ---

  ghost predicate TidyGroup(p: SenseGroup, q: SenseGroup) {
    q.id == p.id && Stripped(p.name, q.name)
  }

  /** A style left out means normal. */
  ghost predicate TidyPron(p: Pronunciation, q: Pronunciation) {
    && q.id == p.id && Stripped(p.dictPhonetic, q.dictPhonetic) && Stripped(p.actualPron, q.actualPron)
    && q.style == (if p.style == NoStyle then NormalStyle else p.style) && q.audio == p.audio
  }

  ghost predicate TidyForm(p: Form, q: Form) {
    && q.id == p.id && q.dialect == p.dialect && q.formType == p.formType && Stripped(p.spelling, q.spelling)
    && |q.pronunciations| == |p.pronunciations|
    && forall i | 0 <= i < |p.pronunciations| :: TidyPron(p.pronunciations[i], q.pronunciations[i])
  }

  predicate TidyVariant(p: GrammarVariant, q: GrammarVariant) {
    q.id == p.id && q.dialect == p.dialect && SameText(p.content, q.content) && q.audio == p.audio
  }

  predicate TidyStruct(p: GrammarStructure, q: GrammarStructure) {
    && q.id == p.id && |q.variants| == |p.variants|
    && forall i | 0 <= i < |p.variants| :: TidyVariant(p.variants[i], q.variants[i])
  }

  predicate TidyDefinition(p: Definition, q: Definition) {
    && q.id == p.id && q.level == p.level && q.defType == p.defType && SameText(p.text, q.text)
    && q.structure == p.structure && q.audio == p.audio
  }

  predicate TidySentence(p: Sentence, q: Sentence) {
    && q.id == p.id && q.sourceExample == p.sourceExample && q.audio == p.audio
    && (p.text.None? <==> q.text.None?) && (p.text.Some? && q.text.Some? ==> SameText(p.text.value, q.text.value))
  }

  /** The two links are as sent; the snapshots are the server's and not taken from the body. */
  predicate TidyRelation(p: Relation, q: Relation) {
    && q.id == p.id && q.relation == p.relation && q.score == p.score
    && q.target.word == p.target.word && q.target.sense == p.target.sense
    && q.target.headword == "" && q.target.gloss == ""
  }

  ghost predicate TidySense(p: Sense, q: Sense) {
    && q.id == p.id && q.subPos == p.subPos && q.level == p.level && q.group == p.group
    && SamePercent(p.frequency, q.frequency) && q.dependsOnContext == p.dependsOnContext
    && |q.definitions| == |p.definitions| && |q.sentences| == |p.sentences| && |q.relations| == |p.relations|
    && (forall i | 0 <= i < |p.definitions| :: TidyDefinition(p.definitions[i], q.definitions[i]))
    && (forall i | 0 <= i < |p.sentences| :: TidySentence(p.sentences[i], q.sentences[i]))
    && (forall i | 0 <= i < |p.relations| :: TidyRelation(p.relations[i], q.relations[i]))
  }

  ghost predicate TidyTab(p: POS, q: POS) {
    && q.id == p.id && q.pos == p.pos
    && |q.forms| == |p.forms| && |q.structures| == |p.structures| && |q.senses| == |p.senses|
    && (forall i | 0 <= i < |p.forms| :: TidyForm(p.forms[i], q.forms[i]))
    && (forall i | 0 <= i < |p.structures| :: TidyStruct(p.structures[i], q.structures[i]))
    && (forall i | 0 <= i < |p.senses| :: TidySense(p.senses[i], q.senses[i]))
  }

  /** c is b, tidied: same nodes in the same places, with text trimmed, percents spelled out and defaults filled in. */
  ghost predicate Tidied(b: SaveInput, c: SaveInput) {
    && c.base == b.base && c.mode == b.mode && c.dialects == b.dialects && SamePercent(b.frequency, c.frequency)
    && |c.groups| == |b.groups| && |c.pos| == |b.pos|
    && (forall i | 0 <= i < |b.groups| :: TidyGroup(b.groups[i], c.groups[i]))
    && (forall i | 0 <= i < |b.pos| :: TidyTab(b.pos[i], c.pos[i]))
  }

  // --- The normal form is tidied ---

  lemma GroupTidied(p: SenseGroup)
    ensures TidyGroup(p, NormalGroup(p))
  {
    IsStripped(p.name);
  }

  lemma FormTidied(p: Form)
    ensures TidyForm(p, WordValidation.NormalForm(p))
  {
    IsStripped(p.spelling);
    hide TrimSpace, Stripped;
    forall i | 0 <= i < |p.pronunciations|
      ensures |NormalProns(p.pronunciations)| == |p.pronunciations|
      ensures TidyPron(p.pronunciations[i], NormalProns(p.pronunciations)[i])
    {
      MapAt(p.pronunciations, NormalPron, i);
      IsStripped(p.pronunciations[i].dictPhonetic);
      IsStripped(p.pronunciations[i].actualPron);
    }
  }

  lemma StructTidied(p: GrammarStructure)
    ensures TidyStruct(p, NormalStruct(p))
  {
    forall i | 0 <= i < |p.variants| ensures TidyVariant(p.variants[i], NormalStruct(p).variants[i]) {
      MapAt(p.variants, NormalVariant, i);
    }
  }

  lemma SenseTidied(p: Sense)
    requires FrequencyOk(NormalFreq(p.frequency))
    ensures TidySense(p, NormalSense(p))
  {
    IsSamePercent(p.frequency);
    hide SamePercent, NormalFreq, FrequencyOk, TidyDefinition, TidySentence, TidyRelation;
    forall i | 0 <= i < |p.definitions| ensures TidyDefinition(p.definitions[i], NormalSense(p).definitions[i]) {
      MapAt(p.definitions, NormalDefinition, i);
      DefinitionTidied(p.definitions[i]);
    }
    SentencesTidied(p.sentences);
    RelationsTidied(p.relations);
  }

  lemma DefinitionTidied(d: Definition)
    ensures TidyDefinition(d, NormalDefinition(d))
  {
  }

  lemma SentencesTidied(ts: seq<Sentence>)
    ensures forall i | 0 <= i < |ts| :: TidySentence(ts[i], Map(ts, NormalSentence)[i])
  {
    forall i | 0 <= i < |ts| ensures TidySentence(ts[i], Map(ts, NormalSentence)[i]) {
      MapAt(ts, NormalSentence, i);
    }
  }

  lemma RelationsTidied(rs: seq<Relation>)
    ensures forall i | 0 <= i < |rs| :: TidyRelation(rs[i], Map(rs, NormalRelation)[i])
  {
    forall i | 0 <= i < |rs| ensures TidyRelation(rs[i], Map(rs, NormalRelation)[i]) {
      MapAt(rs, NormalRelation, i);
    }
  }

  lemma TabTidied(allowed: set<Dialect>, groups: set<Id>, p: POS)
    requires PosOk(allowed, groups, NormalPos(p))
    ensures TidyTab(p, NormalPos(p))
  {
    hide TidyForm, TidyStruct, TidySense, FormOk, StructOk;
    forall i | 0 <= i < |p.forms| ensures TidyForm(p.forms[i], NormalPos(p).forms[i]) {
      MapAt(p.forms, WordValidation.NormalForm, i);
      FormTidied(p.forms[i]);
    }
    forall i | 0 <= i < |p.structures| ensures TidyStruct(p.structures[i], NormalPos(p).structures[i]) {
      MapAt(p.structures, NormalStruct, i);
      StructTidied(p.structures[i]);
    }
    forall i | 0 <= i < |p.senses| ensures TidySense(p.senses[i], NormalPos(p).senses[i]) {
      MapAt(p.senses, NormalSense, i);
      assert SenseOk(groups, StructIds(NormalPos(p).structures), NormalPos(p).senses[i]);
      SenseTidied(p.senses[i]);
    }
  }

  lemma NormalTabOk(b: SaveInput, i: nat)
    requires Valid(Normalized(b)) && i < |b.pos|
    ensures PosOk(AllowedSet(b.mode, b.dialects), GroupIds(Normalized(b).groups), NormalPos(b.pos[i]))
  {
    MapAt(b.pos, NormalPos, i);
    hide PosOk, IdsOk, Doc, NormalGroup, NormalPos, FrequencyOk, NormalFreq, AllowedSet, Map;
  }

  lemma NormalFrequencyOk(b: SaveInput)
    requires Valid(Normalized(b))
    ensures FrequencyOk(NormalFreq(b.frequency))
  {
    hide NodesOk, NormalFreq, FrequencyOk, Map;
  }

  lemma NormalIsTidied(b: SaveInput)
    requires Valid(Normalized(b))
    ensures Tidied(b, Normalized(b))
  {
    NormalFrequencyOk(b);
    IsSamePercent(b.frequency);
    GroupsTidied(b.groups);
    TabsTidied(b);
    hide Valid, SamePercent, NormalFreq, TidyGroup, TidyTab, Map;
  }

  lemma GroupsTidied(gs: seq<SenseGroup>)
    ensures var hs := Map(gs, NormalGroup);
      |hs| == |gs| && forall i | 0 <= i < |gs| :: TidyGroup(gs[i], hs[i])
  {
    forall i | 0 <= i < |gs| ensures TidyGroup(gs[i], Map(gs, NormalGroup)[i]) {
      MapAt(gs, NormalGroup, i);
      GroupTidied(gs[i]);
    }
  }

  lemma TabsTidied(b: SaveInput)
    requires Valid(Normalized(b))
    ensures var ps, qs := b.pos, Map(b.pos, NormalPos);
      |qs| == |ps| && forall i | 0 <= i < |ps| :: TidyTab(ps[i], qs[i])
  {
    hide Valid, TidyTab, PosOk, NormalPos, GroupIds, AllowedSet, Normalized;
    forall i | 0 <= i < |b.pos| ensures TidyTab(b.pos[i], Map(b.pos, NormalPos)[i]) {
      MapAt(b.pos, NormalPos, i);
      NormalTabOk(b, i);
      TabTidied(AllowedSet(b.mode, b.dialects), GroupIds(Normalized(b).groups), b.pos[i]);
    }
  }

  // --- Nothing else is, and valid ---

  lemma FormOnce(allowed: set<Dialect>, p: Form, q: Form)
    requires TidyForm(p, q) && FormOk(allowed, q)
    ensures q == WordValidation.NormalForm(p)
  {
    IsStripped(p.spelling);
    StrippedOnce(p.spelling, q.spelling, TrimSpace(p.spelling));
    hide TrimSpace, Stripped;
    forall i | 0 <= i < |p.pronunciations|
      ensures |NormalProns(p.pronunciations)| == |p.pronunciations|
      ensures q.pronunciations[i] == NormalProns(p.pronunciations)[i]
    {
      var x, y := p.pronunciations[i], q.pronunciations[i];
      MapAt(p.pronunciations, NormalPron, i);
      assert TidyPron(x, y);
      IsStripped(x.dictPhonetic);
      IsStripped(x.actualPron);
      StrippedOnce(x.dictPhonetic, y.dictPhonetic, TrimSpace(x.dictPhonetic));
      StrippedOnce(x.actualPron, y.actualPron, TrimSpace(x.actualPron));
    }
    assert q.pronunciations == NormalProns(p.pronunciations);
  }

  lemma StructOnce(p: GrammarStructure, q: GrammarStructure)
    requires TidyStruct(p, q)
    ensures q == NormalStruct(p)
  {
    forall i | 0 <= i < |p.variants| ensures q.variants[i] == NormalStruct(p).variants[i] {
      MapAt(p.variants, NormalVariant, i);
      assert TidyVariant(p.variants[i], q.variants[i]);
    }
    assert q.variants == NormalStruct(p).variants;
  }

  lemma SenseOnce(groups: set<Id>, structs: set<Id>, p: Sense, q: Sense)
    requires TidySense(p, q) && SenseOk(groups, structs, q)
    ensures q == NormalSense(p)
  {
    SamePercentOnce(p.frequency, q.frequency);
    hide SamePercent, NormalFreq, FrequencyOk;
    var n := NormalSense(p);
    forall i | 0 <= i < |p.definitions| ensures q.definitions[i] == n.definitions[i] {
      MapAt(p.definitions, NormalDefinition, i);
      assert TidyDefinition(p.definitions[i], q.definitions[i]);
    }
    forall i | 0 <= i < |p.sentences| ensures q.sentences[i] == n.sentences[i] {
      MapAt(p.sentences, NormalSentence, i);
      assert TidySentence(p.sentences[i], q.sentences[i]);
    }
    forall i | 0 <= i < |p.relations| ensures q.relations[i] == n.relations[i] {
      MapAt(p.relations, NormalRelation, i);
      assert TidyRelation(p.relations[i], q.relations[i]);
    }
    assert q.definitions == n.definitions && q.sentences == n.sentences && q.relations == n.relations;
  }

  lemma TabOnce(allowed: set<Dialect>, groups: set<Id>, p: POS, q: POS)
    requires TidyTab(p, q) && PosOk(allowed, groups, q)
    ensures q == NormalPos(p)
  {
    hide TidyForm, TidyStruct, TidySense, FormOk, StructOk, SenseOk;
    var n := NormalPos(p);
    forall i | 0 <= i < |p.forms| ensures q.forms[i] == n.forms[i] {
      MapAt(p.forms, WordValidation.NormalForm, i);
      FormOnce(allowed, p.forms[i], q.forms[i]);
    }
    forall i | 0 <= i < |p.structures| ensures q.structures[i] == n.structures[i] {
      MapAt(p.structures, NormalStruct, i);
      StructOnce(p.structures[i], q.structures[i]);
    }
    forall i | 0 <= i < |p.senses| ensures q.senses[i] == n.senses[i] {
      MapAt(p.senses, NormalSense, i);
      SenseOnce(groups, StructIds(q.structures), p.senses[i], q.senses[i]);
    }
    assert q.forms == n.forms && q.structures == n.structures && q.senses == n.senses;
  }

  lemma TidiedOnce(b: SaveInput, c: SaveInput)
    requires Tidied(b, c) && Valid(c)
    ensures c == Normalized(b)
  {
    GroupsOnce(b.groups, c.groups);
    TabsOnce(b, c);
    ValidFrequency(c);
    SamePercentOnce(b.frequency, c.frequency);
    hide Valid, SamePercent, NormalFreq, FrequencyOk, TidyGroup, TidyTab, Map;
  }

  lemma ValidFrequency(c: SaveInput)
    requires Valid(c)
    ensures FrequencyOk(c.frequency)
  {
    hide NodesOk, FrequencyOk;
  }

  lemma GroupsOnce(gs: seq<SenseGroup>, hs: seq<SenseGroup>)
    requires |hs| == |gs| && forall i | 0 <= i < |gs| :: TidyGroup(gs[i], hs[i])
    ensures hs == Map(gs, NormalGroup)
  {
    hide TrimSpace, Stripped;
    forall i | 0 <= i < |gs| ensures |Map(gs, NormalGroup)| == |gs| && hs[i] == Map(gs, NormalGroup)[i] {
      MapAt(gs, NormalGroup, i);
      assert TidyGroup(gs[i], hs[i]);
      IsStripped(gs[i].name);
      StrippedOnce(gs[i].name, hs[i].name, TrimSpace(gs[i].name));
    }
  }

  lemma ValidTab(c: SaveInput, i: nat)
    requires Valid(c) && i < |c.pos|
    ensures PosOk(AllowedSet(c.mode, c.dialects), GroupIds(c.groups), c.pos[i])
  {
    hide PosOk, IdsOk, Doc, FrequencyOk, AllowedSet;
  }

  lemma TabsOnce(b: SaveInput, c: SaveInput)
    requires Valid(c) && |c.pos| == |b.pos| && forall i | 0 <= i < |b.pos| :: TidyTab(b.pos[i], c.pos[i])
    ensures c.pos == Map(b.pos, NormalPos)
  {
    hide Valid, TidyTab, PosOk, NormalPos, GroupIds, AllowedSet;
    forall i | 0 <= i < |b.pos| ensures |Map(b.pos, NormalPos)| == |b.pos| && c.pos[i] == Map(b.pos, NormalPos)[i] {
      MapAt(b.pos, NormalPos, i);
      ValidTab(c, i);
      TabOnce(AllowedSet(c.mode, c.dialects), GroupIds(c.groups), b.pos[i], c.pos[i]);
    }
  }

  lemma TidiedExactly(b: SaveInput)
    ensures forall c :: Valid(Normalized(b)) && c == Normalized(b) <==> Tidied(b, c) && Valid(c)
  {
    hide Valid, Tidied, Normalized;
    forall c ensures Valid(Normalized(b)) && c == Normalized(b) <==> Tidied(b, c) && Valid(c) {
      if Tidied(b, c) && Valid(c) {
        TidiedOnce(b, c);
      }
      if Valid(Normalized(b)) {
        NormalIsTidied(b);
      }
    }
  }

  /** The result is the one valid body, if there is one, that is the input tidied. */
  method ValidateTree(b: SaveInput) returns (r: Option<SaveInput>)
    ensures forall c :: r == Some(c) <==> Tidied(b, c) && Valid(c)
    ensures r == if Valid(Normalized(b)) then Some(Normalized(b)) else None
  {
    TidiedExactly(b);
    hide Tidied;
    if b.base == ZERO_TIME {
      return None;
    }
    var dialects := AllowedDialects(b.mode, b.dialects);
    if dialects.None? {
      return None;
    }
    NormalFreqOk(b.frequency);
    if b.frequency != "" {
      var norm := NormalizeFrequency(b.frequency);
      if norm.Err? {
        return None;
      }
    }
    var ok := ValidateNodes(b, dialects.value);
    if !ok {
      return None;
    }
    return Some(Normalized(b));
  }
}
