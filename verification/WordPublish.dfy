/**
 Publish completeness, rules V1 to V10 (internal/word/service.go): the loops of the
 source against the rules stated one by one.
 */
module WordPublish {
  import opened Basics
  import opened WordModel
  import opened WordValidation

  datatype Rule = V1 | V2 | V3 | V4 | V5 | V6 | V7 | V8 | V9 | V10

  // --- The rules ---

  predicate IsBase(f: Form, d: Dialect) {
    f.formType == Base && f.dialect == d
  }

  predicate OneBase(fs: seq<Form>, d: Dialect) {
    exists i | 0 <= i < |fs| :: IsBase(fs[i], d) && forall j | 0 <= j < |fs| && j != i :: !IsBase(fs[j], d)
  }

  predicate BasesOk(allowed: seq<Dialect>, p: POS) {
    forall k | 0 <= k < |allowed| :: OneBase(p.forms, allowed[k])
  }

  predicate PronComplete(p: Pronunciation) {
    p.dictPhonetic != "" && p.actualPron != ""
  }

  predicate FormComplete(f: Form) {
    && f.spelling != "" && f.pronunciations != []
    && forall i | 0 <= i < |f.pronunciations| :: PronComplete(f.pronunciations[i])
  }

  predicate FormsComplete(p: POS) {
    forall i | 0 <= i < |p.forms| :: FormComplete(p.forms[i])
  }

  /** Variant i is the one that counts for dialect d: no later one has the same dialect. */
  predicate LastOf(vs: seq<GrammarVariant>, d: Dialect, i: int) {
    0 <= i < |vs| && vs[i].dialect == d && forall j | i < j < |vs| :: vs[j].dialect != d
  }

  predicate WordingOk(vs: seq<GrammarVariant>, d: Dialect) {
    exists i | 0 <= i < |vs| :: LastOf(vs, d, i) && !Blank(vs[i].content)
  }

  predicate StructComplete(allowed: seq<Dialect>, g: GrammarStructure) {
    forall k | 0 <= k < |allowed| :: WordingOk(g.variants, allowed[k])
  }

  predicate StructsComplete(allowed: seq<Dialect>, p: POS) {
    p.structures != [] && forall i | 0 <= i < |p.structures| :: StructComplete(allowed, p.structures[i])
  }

  predicate HasDefinitions(p: POS) {
    p.senses != [] && forall i | 0 <= i < |p.senses| :: p.senses[i].definitions != []
  }

  predicate SenseFilled(s: Sense) {
    !s.subPos.NoSubPos? && s.frequency != ""
  }

  predicate SensesFilled(p: POS) {
    forall i | 0 <= i < |p.senses| :: SenseFilled(p.senses[i])
  }

  predicate Worded(s: Sense) {
    forall i | 0 <= i < |s.definitions| :: !Blank(s.definitions[i].text)
  }

  predicate DefinitionsWorded(p: POS) {
    forall i | 0 <= i < |p.senses| :: Worded(p.senses[i])
  }

  /** A live target word needs a picked sense; orphans pass. */
  predicate Picked(r: Relation) {
    r.target.word.Some? ==> r.target.sense.Some?
  }

  predicate SensePicked(s: Sense) {
    forall i | 0 <= i < |s.relations| :: Picked(s.relations[i])
  }

  predicate RelationsPicked(p: POS) {
    forall i | 0 <= i < |p.senses| :: SensePicked(p.senses[i])
  }

  predicate PosMeets(rule: Rule, allowed: seq<Dialect>, p: POS) {
    match rule
    case V4 => BasesOk(allowed, p)
    case V5 => FormsComplete(p)
    case V6 => StructsComplete(allowed, p)
    case V7 => HasDefinitions(p)
    case V8 => SensesFilled(p)
    case V9 => DefinitionsWorded(p)
    case V10 => RelationsPicked(p)
    case _ => true
  }

  predicate Meets(rule: Rule, frequency: string, mode: DialectMode, dialects: seq<Dialect>, pos: seq<POS>) {
    match rule
    case V1 => frequency != ""
    case V2 => ModeOk(mode, dialects)
    case V3 => pos != []
    case _ => forall i | 0 <= i < |pos| :: PosMeets(rule, Allowed(mode, dialects), pos[i])
  }

  predicate Publishable(frequency: string, mode: DialectMode, dialects: seq<Dialect>, pos: seq<POS>) {
    forall rule: Rule :: Meets(rule, frequency, mode, dialects, pos)
  }

  /** Everything but V10, which other entries can break later. */
  predicate Complete(frequency: string, mode: DialectMode, dialects: seq<Dialect>, pos: seq<POS>) {
    forall rule: Rule | rule != V10 :: Meets(rule, frequency, mode, dialects, pos)
  }

  // --- The loops of publishViolations ---

  function BaseCount(fs: seq<Form>, k: nat, d: Dialect): nat
    requires k <= |fs|
  {
    if k == 0 then 0 else BaseCount(fs, k - 1, d) + if IsBase(fs[k - 1], d) then 1 else 0
  }

  lemma {:induction false} BaseCountZero(fs: seq<Form>, k: nat, d: Dialect)
    requires k <= |fs|
    ensures BaseCount(fs, k, d) == 0 <==> forall j | 0 <= j < k :: !IsBase(fs[j], d)
  {
    if k == 0 {
    } else {
      BaseCountZero(fs, k - 1, d);
    }
  }

  predicate OneBaseUpTo(fs: seq<Form>, k: nat, d: Dialect)
    requires k <= |fs|
  {
    exists i | 0 <= i < k :: IsBase(fs[i], d) && forall j | 0 <= j < k && j != i :: !IsBase(fs[j], d)
  }

  lemma NoBaseInNone(fs: seq<Form>, d: Dialect)
    ensures !OneBaseUpTo(fs, 0, d)
  {
  }

  lemma {:induction false} BaseCountOne(fs: seq<Form>, k: nat, d: Dialect)
    requires k <= |fs|
    ensures BaseCount(fs, k, d) == 1 <==> OneBaseUpTo(fs, k, d)
  {
    hide OneBaseUpTo, IsBase;
    if k == 0 {
      NoBaseInNone(fs, d);
    } else {
      BaseCountOne(fs, k - 1, d);
      BaseCountZero(fs, k - 1, d);
      OneBaseStep(fs, k, d);
    }
  }

  lemma OneBaseStep(fs: seq<Form>, k: nat, d: Dialect)
    requires 0 < k <= |fs|
    ensures OneBaseUpTo(fs, k, d) <==>
      if IsBase(fs[k - 1], d) then forall j | 0 <= j < k - 1 :: !IsBase(fs[j], d) else OneBaseUpTo(fs, k - 1, d)
  {
    if IsBase(fs[k - 1], d) {
      if OneBaseUpTo(fs, k, d) {
        var i :| 0 <= i < k && IsBase(fs[i], d) && forall j | 0 <= j < k && j != i :: !IsBase(fs[j], d);
        assert i == k - 1;
      }
    } else if OneBaseUpTo(fs, k - 1, d) {
      var i :| 0 <= i < k - 1 && IsBase(fs[i], d) && forall j | 0 <= j < k - 1 && j != i :: !IsBase(fs[j], d);
      assert forall j | 0 <= j < k && j != i :: !IsBase(fs[j], d);
    }
  }

  lemma OneBaseCounted(fs: seq<Form>, d: Dialect)
    ensures OneBase(fs, d) <==> BaseCount(fs, |fs|, d) == 1
  {
    BaseCountOne(fs, |fs|, d);
  }

  function CountOf(m: map<Dialect, nat>, d: Dialect): nat {
    if d in m then m[d] else 0
  }

  method CountBases(fs: seq<Form>) returns (baseCount: map<Dialect, nat>)
    ensures forall d :: CountOf(baseCount, d) == BaseCount(fs, |fs|, d)
  {
    baseCount := map[];
    for i := 0 to |fs|
      invariant forall d :: CountOf(baseCount, d) == BaseCount(fs, i, d)
    {
      var f := fs[i];
      if f.formType == Base {
        baseCount := baseCount[f.dialect := CountOf(baseCount, f.dialect) + 1];
      }
    }
  }

  method CheckBases(allowed: seq<Dialect>, p: POS) returns (v: seq<Rule>)
    ensures forall r :: r in v <==> r == V4 && !BasesOk(allowed, p)
  {
    hide OneBase, BaseCount;
    var baseCount := CountBases(p.forms);
    v := [];
    for k := 0 to |allowed|
      invariant forall r :: r in v <==> r == V4 && exists j | 0 <= j < k :: !OneBase(p.forms, allowed[j])
    {
      OneBaseCounted(p.forms, allowed[k]);
      if CountOf(baseCount, allowed[k]) != 1 {
        v := v + [V4];
      }
    }
  }

  method CheckForms(p: POS) returns (v: seq<Rule>)
    ensures forall r :: r in v <==> r == V5 && !FormsComplete(p)
  {
    v := [];
    for i := 0 to |p.forms|
      invariant forall r :: r in v <==> r == V5 && exists j | 0 <= j < i :: !FormComplete(p.forms[j])
    {
      var f := p.forms[i];
      var w: seq<Rule> := [];
      if f.spelling == "" {
        w := w + [V5];
      }
      if f.pronunciations == [] {
        w := w + [V5];
      }
      for k := 0 to |f.pronunciations|
        invariant forall r :: r in w <==> (r == V5 &&
          (f.spelling == "" || f.pronunciations == [] || exists j | 0 <= j < k :: !PronComplete(f.pronunciations[j])))
      {
        if f.pronunciations[k].dictPhonetic == "" {
          w := w + [V5];
        }
        if f.pronunciations[k].actualPron == "" {
          w := w + [V5];
        }
      }
      assert V5 in w <==> !FormComplete(f);
      v := v + w;
    }
  }

  method LastVariants(vs: seq<GrammarVariant>) returns (m: map<Dialect, int>)
    ensures forall d | d in m :: LastOf(vs, d, m[d])
    ensures forall i | 0 <= i < |vs| :: vs[i].dialect in m
  {
    m := map[];
    for i := 0 to |vs|
      invariant forall d | d in m :: 0 <= m[d] < i && vs[m[d]].dialect == d
      invariant forall d, j | d in m && m[d] < j < i :: vs[j].dialect != d
      invariant forall j | 0 <= j < i :: vs[j].dialect in m
    {
      m := m[vs[i].dialect := i];
    }
  }

  method CheckStructs(allowed: seq<Dialect>, p: POS) returns (v: seq<Rule>)
    ensures forall r :: r in v <==> r == V6 && !StructsComplete(allowed, p)
  {
    v := if p.structures == [] then [V6] else [];
    for i := 0 to |p.structures|
      invariant forall r :: r in v <==> (r == V6 &&
        (p.structures == [] || exists j | 0 <= j < i :: !StructComplete(allowed, p.structures[j])))
    {
      var g := p.structures[i];
      var byDialect := LastVariants(g.variants);
      var w: seq<Rule> := [];
      for k := 0 to |allowed|
        invariant forall r :: r in w <==> r == V6 && exists j | 0 <= j < k :: !WordingOk(g.variants, allowed[j])
      {
        if allowed[k] !in byDialect {
          w := w + [V6];
        } else {
          var last := byDialect[allowed[k]];
          assert forall j | 0 <= j < |g.variants| && LastOf(g.variants, allowed[k], j) :: j == last;
          if Blank(g.variants[last].content) {
            w := w + [V6];
          }
        }
      }
      assert V6 in w <==> !StructComplete(allowed, g);
      v := v + w;
    }
  }

  /** What one sense adds under rule r. */
  predicate SenseBreaks(r: Rule, s: Sense) {
    match r
    case V7 => s.definitions == []
    case V8 => !SenseFilled(s)
    case V9 => !Worded(s)
    case V10 => !SensePicked(s)
    case _ => false
  }

  method CheckSense(s: Sense) returns (v: seq<Rule>)
    ensures forall r :: r in v <==> SenseBreaks(r, s)
  {
    v := [];
    if s.subPos.NoSubPos? {
      v := v + [V8];
    }
    if s.frequency == "" {
      v := v + [V8];
    }
    if s.definitions == [] {
      v := v + [V7];
    }
    ghost var v0 := v;
    for k := 0 to |s.definitions|
      invariant forall r :: r in v <==> r in v0 || (r == V9 && exists j | 0 <= j < k :: Blank(s.definitions[j].text))
    {
      if Blank(s.definitions[k].text) {
        v := v + [V9];
      }
    }
    ghost var v1 := v;
    for k := 0 to |s.relations|
      invariant forall r :: r in v <==> r in v1 || (r == V10 && exists j | 0 <= j < k :: !Picked(s.relations[j]))
    {
      var target := s.relations[k].target;
      if target.word.Some? && target.sense.None? {
        v := v + [V10];
      }
    }
  }

  method CheckSenses(p: POS) returns (v: seq<Rule>)
    ensures forall r :: r in v <==> r in {V7, V8, V9, V10} && !PosMeets(r, [], p)
  {
    v := if p.senses == [] then [V7] else [];
    for i := 0 to |p.senses|
      invariant forall r :: r in v <==>
        (r == V7 && p.senses == []) || exists j | 0 <= j < i :: SenseBreaks(r, p.senses[j])
    {
      var w := CheckSense(p.senses[i]);
      v := v + w;
    }
  }

  method CheckPos(allowed: seq<Dialect>, p: POS) returns (v: seq<Rule>)
    ensures forall r :: r in v <==> !PosMeets(r, allowed, p)
  {
    var bases := CheckBases(allowed, p);
    var forms := CheckForms(p);
    var structs := CheckStructs(allowed, p);
    var senses := CheckSenses(p);
    v := bases + forms + structs + senses;
  }

  /** V1 to V3 ask nothing of a single tab. */
  lemma EarlyRules(allowed: seq<Dialect>, pos: seq<POS>)
    ensures forall r, i | r in {V1, V2, V3} && 0 <= i < |pos| :: PosMeets(r, allowed, pos[i])
  {
  }

  /** The rules reported are exactly the rules broken; a bad dialect set hides V3 to V10. */
  method PublishViolations(frequency: string, mode: DialectMode, dialects: seq<Dialect>, pos: seq<POS>)
      returns (v: seq<Rule>)
    ensures ModeOk(mode, dialects) ==> forall r :: r in v <==> !Meets(r, frequency, mode, dialects, pos)
    ensures !ModeOk(mode, dialects) ==> forall r :: r in v <==> r == V2 || (r == V1 && frequency == "")
    ensures v == [] <==> Publishable(frequency, mode, dialects, pos)
  {
    hide PosMeets, ModeOk, Allowed;
    EarlyRules(Allowed(mode, dialects), pos);
    v := if frequency == "" then [V1] else [];
    var dialectsOk := AllowedDialects(mode, dialects);
    if dialectsOk.None? {
      v := v + [V2];
      assert V2 in v && !Meets(V2, frequency, mode, dialects, pos);
      return;
    }
    var allowed := dialectsOk.value;
    if pos == [] {
      v := v + [V3];
    }
    ghost var v0 := v;
    for i := 0 to |pos|
      invariant forall r :: r in v <==> r in v0 || exists j | 0 <= j < i :: !PosMeets(r, allowed, pos[j])
    {
      var w := CheckPos(allowed, pos[i]);
      v := v + w;
    }
    if v != [] {
      assert v[0] in v;
    }
  }
}
