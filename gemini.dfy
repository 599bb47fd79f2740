/** The AI gateway of the client (core/gemini.ts): the instruction and
    prompt each request sends, and how the model's answer or failure
    becomes the text the screen shows. The model call itself is an
    outcome passed in. */
module CoreGemini {
  import opened Wrappers
  import opened Text
  import opened CoreTypes

  /** What one `generateContent` call gave back: the response text, or a
      thrown error with its `message`, if it had one. */
  datatype AiOutcome = Responded(text: string) | Failed(message: Option<string>)

  /** What is sent to the model: its system instruction and the prompt. */
  datatype AiRequest = AiRequest(systemInstruction: string, prompt: string)

  /** `getApiKey`: the first configured of the two build-time keys, or the
      embedded fallback key (passed in here). */
  function ChooseApiKey(geminiKey: Option<string>, firebaseKey: Option<string>, fallback: string): (r: string)
    ensures geminiKey.Some? && geminiKey.value != "" ==> r == geminiKey.value
    ensures !(geminiKey.Some? && geminiKey.value != "") && firebaseKey.Some? && firebaseKey.value != "" ==> r == firebaseKey.value
    ensures fallback != "" ==> r != ""
    ensures r in {fallback} + (if geminiKey.Some? then {geminiKey.value} else {}) + (if firebaseKey.Some? then {firebaseKey.value} else {})
  {
    if geminiKey.Some? && geminiKey.value != "" then geminiKey.value
    else if firebaseKey.Some? && firebaseKey.value != "" then firebaseKey.value
    else fallback
  }

  // ---------------------------------------------------------------- askBibleAI

  const AskApology: string :=
    "Desculpe, tive um problema ao processar sua dúvida na Inteligência Artificial. Por favor, tente novamente em instantes."

  /** The conversation instruction for a persona and a theological line. */
  function AskInstruction(persona: string, theology: TheologyLine): string {
    AskHead + persona + AskMiddle + theology.Label() + AskTail
  }

  const AskHead: string := "Você é um "
  const AskMiddle: string := " bíblico na linha teológica "
  const AskTail: string := ". Responda com reverência, profundidade e base bíblica total. Nunca diga que é uma IA."

  /** The request of `askBibleAI`: the question goes out unchanged. */
  function AskRequest(question: string, theology: TheologyLine, persona: string): (r: AiRequest)
    ensures r.prompt == question
    ensures Contains(r.systemInstruction, persona) && Contains(r.systemInstruction, theology.Label())
  {
    ContainsInfix(AskHead, persona, AskMiddle);
    ContainsExtend(AskHead + persona + AskMiddle, theology.Label(), persona);
    ContainsExtend(AskHead + persona + AskMiddle + theology.Label(), AskTail, persona);
    ContainsInfix(AskHead + persona + AskMiddle, theology.Label(), AskTail);
    AiRequest(AskInstruction(persona, theology), question)
  }

  /** The answer of `askBibleAI`: the response text as it came (an empty
      one included), or the apology on any failure. */
  function AskReply(outcome: AiOutcome): (r: string)
    ensures outcome.Responded? ==> r == outcome.text
    ensures outcome.Failed? ==> r == AskApology
  {
    match outcome
    case Responded(text) => text
    case Failed(_) => AskApology
  }

  // ---------------------------------------------------------- generateExegesis

  const EmptyAnswerError: string := "Resposta vazia da IA"
  const InvalidKeyMarker: string := "API_KEY_INVALID"
  const InvalidKeyReply: string :=
    "Erro: A chave de API configurada é inválida. Por favor, verifique as configurações no painel admin."
  const GenericFailureReply: string :=
    "A Inteligência Artificial não conseguiu gerar o estudo agora. Isso pode ser um problema de conexão ou limite de uso da chave. Tente novamente em alguns segundos."

  /** The exegesis instruction; the template keeps the source's line
      breaks and twelve-space indentation. */
  function ExegesisInstruction(theology: TheologyLine): (r: string)
    ensures Contains(r, theology.Label())
  {
    ContainsInfix(InstructionHead, theology.Label(), InstructionTail);
    InstructionHead + theology.Label() + InstructionTail
  }

  const InstructionHead: string :=
    "Você é um erudito bíblico sênior com doutorado em línguas originais (Grego/Hebraico) e teologia histórica.\n            Sua perspectiva é estritamente: "
  const InstructionTail: string := ".\n            Instrução: Gere uma exegese profunda, técnica e acadêmica."

  /** The `switch (module)` on the module's runtime string: the cases are
      compared in order, and a string that is none of the six labels falls
      to `default`. */
  function ModuleOfLabel(moduleName: string): (r: Option<ExegesisModule>)
    ensures r.Some? ==> r.value.Label() == moduleName
    ensures r.None? ==> forall m: ExegesisModule :: m.Label() != moduleName
  {
    if moduleName == Originals.Label() then Some(Originals)
    else if moduleName == FullExegesis.Label() then Some(FullExegesis)
    else if moduleName == Homiletic.Label() then Some(Homiletic)
    else if moduleName == Teacher.Label() then Some(Teacher)
    else if moduleName == Dictionary.Label() then Some(Dictionary)
    else if moduleName == Syntax.Label() then Some(Syntax)
    else None
  }

  /** Each module's label selects that module's case. */
  lemma ModuleOfLabelInverse(m: ExegesisModule)
    ensures ModuleOfLabel(m.Label()) == Some(m)
  {
    var r := ModuleOfLabel(m.Label());
    ModuleLabelsDistinct(m, r.value);
  }

  // The fixed text of each `case`, before and after the quoted reference;
  // each lead is split after its first words, which tell the cases apart.
  const OriginalsOpening: string := "Realize"
  const OriginalsRest: string := " uma análise léxica detalhada de "
  const FullOpening: string := "Gere uma"
  const FullRest: string := " exegese completa e densa de "
  const HomileticOpening: string := "Gere apenas"
  const HomileticRest: string := " o esqueleto estrutural (tópicos principais) para um sermão baseado em "
  const TeacherOpening: string := "Crie um"
  const TeacherRest: string := " plano de aula pedagógico para ensinar o texto "
  const DictionaryOpening: string := "Defina"
  const DictionaryRest: string := " os principais conceitos teológicos presentes em "
  const SyntaxOpening: string := "Analise"
  const SyntaxRest: string := " a estrutura sintática e a lógica gramatical das orações em "
  const OriginalsLead: string := OriginalsOpening + OriginalsRest
  const OriginalsTail: string := ". Inclua o termo em Grego/Hebraico, transliteração, significado raiz e nuance teológica."
  const FullLead: string := FullOpening + FullRest
  const FullMiddle: string := " cobrindo contexto histórico, análise literária e implicações doutrinárias sob a ótica "
  const HomileticLead: string := HomileticOpening + HomileticRest
  const TeacherLead: string := TeacherOpening + TeacherRest
  const TeacherTail: string := " em uma classe de teologia."
  const DictionaryLead: string := DictionaryOpening + DictionaryRest
  const DictionaryTail: string := " como em um dicionário bíblico erudito."
  const SyntaxLead: string := SyntaxOpening + SyntaxRest
  const DefaultLead: string := "Realize um estudo teológico profundo sobre "
  const DefaultMiddle: string := " focado em "

  /** The template of one `case`, around the quoted reference `q`. */
  function CasePrompt(q: string, theology: TheologyLine, m: ExegesisModule): string {
    match m
    case Originals => OriginalsLead + q + OriginalsTail
    case FullExegesis => FullLead + q + FullMiddle + theology.Label() + "."
    case Homiletic => HomileticLead + q + "."
    case Teacher => TeacherLead + q + TeacherTail
    case Dictionary => DictionaryLead + q + DictionaryTail
    case Syntax => SyntaxLead + q + "."
  }

  /** The `default` template. */
  function DefaultPrompt(q: string, moduleName: string): string {
    DefaultLead + q + DefaultMiddle + moduleName + "."
  }

  /** The prompt `generateExegesis` sends for a module string. */
  function ExegesisPrompt(reference: string, theology: TheologyLine, moduleName: string): string {
    match ModuleOfLabel(moduleName)
    case Some(m) => CasePrompt(Quoted(reference), theology, m)
    case None => DefaultPrompt(Quoted(reference), moduleName)
  }

  /** Each case's template quotes the reference. */
  lemma CasePromptQuotes(q: string, theology: TheologyLine, m: ExegesisModule)
    ensures Contains(CasePrompt(q, theology, m), q)
  {
    match m
    case Originals => ContainsInfix(OriginalsLead, q, OriginalsTail);
    case FullExegesis =>
      ContainsInfix(FullLead, q, FullMiddle);
      ContainsExtend(FullLead + q + FullMiddle, theology.Label(), q);
      ContainsExtend(FullLead + q + FullMiddle + theology.Label(), ".", q);
    case Homiletic => ContainsInfix(HomileticLead, q, ".");
    case Teacher => ContainsInfix(TeacherLead, q, TeacherTail);
    case Dictionary => ContainsInfix(DictionaryLead, q, DictionaryTail);
    case Syntax => ContainsInfix(SyntaxLead, q, ".");
  }

  /** Every prompt, whatever the module string, quotes the reference. */
  lemma PromptQuotesReference(reference: string, theology: TheologyLine, moduleName: string)
    ensures Contains(ExegesisPrompt(reference, theology, moduleName), Quoted(reference))
  {
    var q := Quoted(reference);
    var r := ModuleOfLabel(moduleName);
    if r.Some? {
      CasePromptQuotes(q, theology, r.value);
    } else {
      ContainsInfix(DefaultLead, q, DefaultMiddle);
      ContainsExtend(DefaultLead + q + DefaultMiddle, moduleName, q);
      ContainsExtend(DefaultLead + q + DefaultMiddle + moduleName, ".", q);
    }
  }

  /** The fixed text each case's prompt opens with. */
  function CaseLead(m: ExegesisModule): string {
    match m
    case Originals => OriginalsLead
    case FullExegesis => FullLead
    case Homiletic => HomileticLead
    case Teacher => TeacherLead
    case Dictionary => DictionaryLead
    case Syntax => SyntaxLead
  }

  /** The first words of each lead, which tell the cases apart. */
  function CaseOpening(m: ExegesisModule): string {
    match m
    case Originals => OriginalsOpening
    case FullExegesis => FullOpening
    case Homiletic => HomileticOpening
    case Teacher => TeacherOpening
    case Dictionary => DictionaryOpening
    case Syntax => SyntaxOpening
  }

  /** Each case's prompt opens with that case's lead sentence, which opens
      with the case's first words. */
  lemma CasePromptOpensWithLead(q: string, theology: TheologyLine, m: ExegesisModule)
    ensures StartsWith(CasePrompt(q, theology, m), CaseLead(m))
    ensures StartsWith(CaseLead(m), CaseOpening(m))
  {
    var lead := CaseLead(m);
    StartsWithHead(lead, q);
    match m
    case Originals =>
      StartsWithHead(OriginalsOpening, OriginalsRest);
      StartsWithExtend(lead + q, OriginalsTail, lead);
    case FullExegesis =>
      StartsWithHead(FullOpening, FullRest);
      StartsWithExtend(lead + q, FullMiddle, lead);
      StartsWithExtend(lead + q + FullMiddle, theology.Label(), lead);
      StartsWithExtend(lead + q + FullMiddle + theology.Label(), ".", lead);
    case Homiletic =>
      StartsWithHead(HomileticOpening, HomileticRest);
      StartsWithExtend(lead + q, ".", lead);
    case Teacher =>
      StartsWithHead(TeacherOpening, TeacherRest);
      StartsWithExtend(lead + q, TeacherTail, lead);
    case Dictionary =>
      StartsWithHead(DictionaryOpening, DictionaryRest);
      StartsWithExtend(lead + q, DictionaryTail, lead);
    case Syntax =>
      StartsWithHead(SyntaxOpening, SyntaxRest);
      StartsWithExtend(lead + q, ".", lead);
  }

  /** The six leads differ in their first or sixth character, and each
      prompt carries its lead's characters there. */
  lemma CaseLeadsDiffer(q: string, theology: TheologyLine, m: ExegesisModule)
    ensures |CaseLead(m)| > 5
    ensures CasePrompt(q, theology, m)[0] == CaseLead(m)[0]
    ensures CasePrompt(q, theology, m)[5] == CaseLead(m)[5]
    ensures (CaseLead(m)[0], CaseLead(m)[5]) == match m
      case Originals => ('R', 'z') case FullExegesis => ('G', 'u') case Homiletic => ('G', 'a')
      case Teacher => ('C', 'u') case Dictionary => ('D', 'a') case Syntax => ('A', 's')
  {
    match m
    case Originals => assert OriginalsLead[0] == 'R' && OriginalsLead[5] == 'z';
    case FullExegesis => assert FullLead[0] == 'G' && FullLead[5] == 'u';
    case Homiletic => assert HomileticLead[0] == 'G' && HomileticLead[5] == 'a';
    case Teacher => assert TeacherLead[0] == 'C' && TeacherLead[5] == 'u';
    case Dictionary => assert DictionaryLead[0] == 'D' && DictionaryLead[5] == 'a';
    case Syntax => assert SyntaxLead[0] == 'A' && SyntaxLead[5] == 's';
  }

  /** The six modules get six different prompts for the same reference. */
  lemma PromptIdentifiesModule(reference: string, theology: TheologyLine, a: ExegesisModule, b: ExegesisModule)
    ensures ExegesisPrompt(reference, theology, a.Label()) == ExegesisPrompt(reference, theology, b.Label()) ==> a == b
  {
    ModuleOfLabelInverse(a);
    ModuleOfLabelInverse(b);
    var q := Quoted(reference);
    CaseLeadsDiffer(q, theology, a);
    CaseLeadsDiffer(q, theology, b);
  }

  lemma FullCaseNamesTheology(q: string, theology: TheologyLine)
    ensures Contains(CasePrompt(q, theology, FullExegesis), theology.Label())
  {
    ContainsInfix(FullLead + q + FullMiddle, theology.Label(), ".");
  }

  /** Full exegesis also names the theological line in its prompt (every
      module's instruction carries it). */
  lemma FullExegesisPromptNamesTheology(reference: string, theology: TheologyLine)
    ensures Contains(ExegesisPrompt(reference, theology, FullExegesis.Label()), theology.Label())
  {
    ModuleOfLabelInverse(FullExegesis);
    FullCaseNamesTheology(Quoted(reference), theology);
  }

  /** A module string that is none of the six labels reaches `default`,
      whose prompt names that string. */
  lemma DefaultPromptNamesModule(reference: string, theology: TheologyLine, moduleName: string)
    requires forall m: ExegesisModule :: m.Label() != moduleName
    ensures Contains(ExegesisPrompt(reference, theology, moduleName), moduleName)
  {
    ContainsInfix(DefaultLead + Quoted(reference) + DefaultMiddle, moduleName, ".");
  }

  /** The request of `generateExegesis`. */
  function ExegesisRequest(reference: string, theology: TheologyLine, moduleName: string): (r: AiRequest)
    ensures Contains(r.systemInstruction, theology.Label())
    ensures Contains(r.prompt, Quoted(reference))
  {
    PromptQuotesReference(reference, theology, moduleName);
    AiRequest(ExegesisInstruction(theology), ExegesisPrompt(reference, theology, moduleName))
  }

  /** The `catch` of `generateExegesis`: an error whose message includes
      `API_KEY_INVALID` gets the key notice, any other the generic one. */
  function FailureReply(message: Option<string>): (r: string)
    ensures r == InvalidKeyReply <==> message.Some? && Contains(message.value, InvalidKeyMarker)
    ensures r == GenericFailureReply || r == InvalidKeyReply
  {
    if message.Some? && Contains(message.value, InvalidKeyMarker) then InvalidKeyReply
    else GenericFailureReply
  }

  /** The answer of `generateExegesis`: a non-empty text as it came; an
      empty one is thrown as `Resposta vazia da IA` and caught like any
      other failure. */
  function ExegesisReply(outcome: AiOutcome): string {
    match outcome
    case Responded(text) => if text != "" then text else FailureReply(Some(EmptyAnswerError))
    case Failed(message) => FailureReply(message)
  }

  /** The empty-answer error cannot be mistaken for an invalid key. */
  lemma EmptyAnswerIsGeneric()
    ensures FailureReply(Some(EmptyAnswerError)) == GenericFailureReply
  {
    assert InvalidKeyMarker[3] !in EmptyAnswerError;
    MissingCharNotContained(EmptyAnswerError, InvalidKeyMarker, 3);
  }

  /** The exegesis answer is never empty: either the model's own non-empty
      text, or one of the two failure notices. */
  lemma ExegesisReplyOutcomes(outcome: AiOutcome)
    ensures ExegesisReply(outcome) != ""
    ensures outcome.Responded? && outcome.text != "" ==> ExegesisReply(outcome) == outcome.text
    ensures outcome.Responded? && outcome.text == "" ==> ExegesisReply(outcome) == GenericFailureReply
    ensures outcome.Failed? ==> ExegesisReply(outcome) in {InvalidKeyReply, GenericFailureReply}
  {
    EmptyAnswerIsGeneric();
  }
}
