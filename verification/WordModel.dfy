/** The word entry tree and its vocabulary (internal/word/model.go). */
module WordModel {
  import opened Basics
  import opened Text

  datatype Kind = SingleWord | Phrase
  datatype Status = Draft | Published

  // Enumerations arrive as client strings: Other* stands for every string outside the vocabulary.
  datatype DialectMode = Distinguish | Unified | OtherMode(text: string)
  datatype Dialect = UK | US | Common | OtherDialect(text: string)
  datatype Style = NoStyle | NormalStyle | Strong | Weak | OtherStyle(text: string)
  datatype DefType = ZH | EN | OtherDefType(text: string)
  datatype RelationType = Synonym | Antonym | Derivative | OtherRelation(text: string)
  datatype Level = A1 | A2 | B1 | B2 | C1 | C2 | OtherLevel(text: string)
  datatype PosTag = Noun | Pronoun | Verb | Adjective | Adverb | Preposition | Article | Determiner
    | Conjunction | Numeral | Interjection | OtherPos(text: string)
  datatype FormType = Base | PresentParticiple | PastTense | PastParticiple | ThirdPersonSingular | Plural
    | Comparative | Superlative | OtherFormType(text: string)
  /** Up to surrounding white space, which validation trims; NoSubPos is the empty string. */
  datatype SubPos = NoSubPos | VT | VI | VLink | Aux | Modal | NCount | NUncount | NProper | NPlural | NSing
    | Adj | Adv | Pron | Prep | Conj | Det | Art | Num | Int | OtherSubPos(text: string)
  datatype SpanType = Bold | Blue | OtherSpan(text: string)

  const RICH_TEXT_VERSION := 1
  const MAX_SHORT_FIELD := 200
  const MAX_RICH_TEXT_LEN := 5000
  const MAX_MARKS := 500
  const MAX_TREE_NODES := 5000

  /** The updated_at column as an optimistic-lock token; 0 is Go's zero time. */
  type Token = nat
  const ZERO_TIME: Token := 0

  // --- Rich text ---

  datatype Span = Span(start: int, end: int, kind: SpanType)

  /** A nil Go slice is None. */
  datatype RichText = RichText(version: int, text: string, spans: Option<seq<Span>>, liaisons: Option<seq<int>>)

  function OrEmpty<T>(s: Option<seq<T>>): seq<T> {
    if s.Some? then s.value else []
  }

  predicate Blank(rt: RichText) {
    TrimSpace(rt.text) == ""
  }

  predicate SpanOk(sp: Span, n: nat) {
    !sp.kind.OtherSpan? && 0 <= sp.start < sp.end <= n
  }

  predicate LiaisonOk(li: int, n: nat) {
    0 <= li && li + 1 < n
  }

  predicate TextOk(rt: RichText) {
    && rt.version == RICH_TEXT_VERSION
    && |rt.text| <= MAX_RICH_TEXT_LEN
    && |OrEmpty(rt.spans)| <= MAX_MARKS && |OrEmpty(rt.liaisons)| <= MAX_MARKS
    && (forall i | 0 <= i < |OrEmpty(rt.spans)| :: SpanOk(OrEmpty(rt.spans)[i], |rt.text|))
    && (forall i | 0 <= i < |OrEmpty(rt.liaisons)| :: LiaisonOk(OrEmpty(rt.liaisons)[i], |rt.text|))
  }

  method ValidateText(rt: RichText) returns (ok: bool)
    ensures ok <==> TextOk(rt)
  {
    if rt.version != RICH_TEXT_VERSION {
      return false;
    }
    var n := |rt.text|;
    var spans, liaisons := OrEmpty(rt.spans), OrEmpty(rt.liaisons);
    if n > MAX_RICH_TEXT_LEN || |spans| > MAX_MARKS || |liaisons| > MAX_MARKS {
      return false;
    }
    for i := 0 to |spans|
      invariant forall j | 0 <= j < i :: SpanOk(spans[j], n)
    {
      var sp := spans[i];
      if sp.kind != Bold && sp.kind != Blue {
        return false;
      }
      if sp.start < 0 || sp.end > n || sp.start >= sp.end {
        return false;
      }
    }
    for i := 0 to |liaisons|
      invariant forall j | 0 <= j < i :: LiaisonOk(liaisons[j], n)
    {
      if liaisons[i] < 0 || liaisons[i] >= n - 1 {
        return false;
      }
    }
    return true;
  }

  /** Nil mark collections become empty ones. */
  function NormalText(rt: RichText): RichText {
    rt.(spans := Some(OrEmpty(rt.spans)), liaisons := Some(OrEmpty(rt.liaisons)))
  }

  // --- The entry tree; slice order is meaning ---

  /** Server-owned audio columns; an empty string is SQL NULL. */
  datatype Audio = Audio(url: string, source: string)
  const SILENT := Audio("", "")

  datatype SenseGroup = SenseGroup(id: Id, name: string)

  datatype Pronunciation = Pronunciation(id: Id, dictPhonetic: string, actualPron: string, style: Style, audio: Audio)

  datatype Form = Form(id: Id, dialect: Dialect, formType: FormType, spelling: string, pronunciations: seq<Pronunciation>)

  datatype GrammarVariant = GrammarVariant(id: Id, dialect: Dialect, content: RichText, audio: Audio)

  datatype GrammarStructure = GrammarStructure(id: Id, variants: seq<GrammarVariant>)

  datatype Definition = Definition(id: Id, level: Level, defType: DefType, text: RichText, structure: Option<Id>, audio: Audio)

  datatype Sentence = Sentence(id: Id, sourceExample: Option<Id>, text: Option<RichText>, audio: Audio)

  /** The four target columns of a relation: two links and two display snapshots. */
  datatype Link = Link(word: Option<Id>, sense: Option<Id>, headword: string, gloss: string)

  datatype Relation = Relation(id: Id, relation: RelationType, target: Link, score: int)

  datatype Sense = Sense(id: Id, subPos: SubPos, level: Level, group: Option<Id>, frequency: string,
    dependsOnContext: bool, definitions: seq<Definition>, sentences: seq<Sentence>, relations: seq<Relation>)

  datatype POS = POS(id: Id, pos: PosTag, forms: seq<Form>, structures: seq<GrammarStructure>, senses: seq<Sense>)

  datatype Word = Word(id: Id, kind: Kind, headword: string, frequency: string, mode: DialectMode,
    dialects: seq<Dialect>, status: Status, createdBy: Id, updatedAt: Token,
    groups: seq<SenseGroup>, pos: seq<POS>)

  /** The body of a save: the full editable tree. */
  datatype SaveInput = SaveInput(base: Token, frequency: string, mode: DialectMode, dialects: seq<Dialect>,
    groups: seq<SenseGroup>, pos: seq<POS>)

  /** A loaded entry, sent back as it came, with its own token. */
  function Echo(w: Word): SaveInput {
    SaveInput(w.updatedAt, w.frequency, w.mode, w.dialects, w.groups, w.pos)
  }
}
