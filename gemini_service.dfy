/** The older AI gateway (services/geminiService.ts), used by the legacy
    exegesis view: one prompt built from a fixed header, a module-specific
    instruction and a closing sentence, sent only when an API key is
    configured. The key lookup and the model call are parameters. */
module GeminiService {
  import opened Wrappers
  import opened Text
  import opened CoreTypes
  import opened LegacyTypes

  /** What `generateContent` gave back: a response whose `text` may be
      missing, or a thrown error. */
  datatype GenAiOutcome = Answered(text: Option<string>) | Threw

  const MissingKeyReply: string := "Erro: Chave de API não configurada. Contate o administrador."
  const EmptyTextReply: string := "Não foi possível gerar o estudo. Tente novamente."
  const ConnectionErrorReply: string := "Erro ao comunicar com a inteligência artificial. Verifique sua conexão."

  /** `if (!apiKey)`: an absent or empty key leaves no client. */
  predicate HasClient(apiKey: Option<string>) {
    apiKey.Some? && apiKey.value != ""
  }

  // The template's fixed lines; the template literal keeps the source's
  // two-space indentation after each line break.
  const HeaderOpening: string := "Atue como um erudito bíblico sênior e especialista em teologia.\n  \n  Texto Base: "
  const TheologyCaption: string := "\n  Linha Teológica Obrigatória: "
  const ModuleCaption: string := "\n  Tipo de Estudo: "
  const InstructionsCaption: string := "\n  \n  Instruções Específicas:\n  "
  const ClosingSentence: string := "\n\nMantenha uma linguagem acadêmica porém acessível. Responda em Markdown formatado."

  /** The header the prompt starts with: reference, line and module label. */
  function PromptHeader(reference: string, theology: TheologyLine, m: ExegesisModule): string {
    HeaderOpening + Quoted(reference) + TheologyCaption + theology.Label()
      + ModuleCaption + LegacyModuleLabel(m) + InstructionsCaption
  }

  // The text each `case` appends; split after the first words, which tell
  // the modules apart.
  const OriginalsOpening: string := "Analise as"
  const OriginalsRest: string := " palavras-chave no original (Hebraico ou Grego). Forneça transliteração, morfologia e significado raiz."
  const OriginalsInstruction: string := OriginalsOpening + OriginalsRest
  const FullOpening: string := "Forneça"
  const FullRest: string := " uma exegese completa: Contexto histórico, literário, análise versículo por versículo e aplicação teológica."
  const FullInstruction: string := FullOpening + FullRest
  const HomileticOpening: string := "Crie"
  const HomileticRest: string := " um esboço de pregação estruturado: Título, Introdução, Tópicos principais (com aliteração se possível) e Conclusão prática."
  const HomileticInstruction: string := HomileticOpening + HomileticRest
  const TeacherOpening: string := "Prepare"
  const TeacherRest: string := " uma aula para Escola Bíblica Dominical. Inclua: Objetivo da aula, pontos de ensino, dinâmicas e perguntas para discussão."
  const TeacherInstruction: string := TeacherOpening + TeacherRest
  const DictionaryOpening: string := "Liste"
  const DictionaryRest: string := " as palavras mais importantes do texto e forneça definições profundas baseadas em dicionários bíblicos respeitados."
  const DictionaryInstruction: string := DictionaryOpening + DictionaryRest
  const SyntaxOpening: string := "Analise a "
  const SyntaxRest: string := "estrutura gramatical e sintática das frases. Identifique verbos principais, conectivos e fluxo de pensamento."
  const SyntaxInstruction: string := SyntaxOpening + SyntaxRest

  function ModuleInstruction(m: ExegesisModule): string {
    match m
    case Originals => OriginalsInstruction
    case FullExegesis => FullInstruction
    case Homiletic => HomileticInstruction
    case Teacher => TeacherInstruction
    case Dictionary => DictionaryInstruction
    case Syntax => SyntaxInstruction
  }

  /** The first words of each module's instruction. */
  function InstructionWords(m: ExegesisModule): string {
    match m
    case Originals => OriginalsOpening
    case FullExegesis => FullOpening
    case Homiletic => HomileticOpening
    case Teacher => TeacherOpening
    case Dictionary => DictionaryOpening
    case Syntax => SyntaxOpening
  }

  /** Each instruction opens with its module's first words; the six differ
      in their first character, and the two that open with "Analise" in
      their tenth. */
  lemma InstructionOpening(m: ExegesisModule)
    ensures StartsWith(ModuleInstruction(m), InstructionWords(m))
    ensures |ModuleInstruction(m)| > 9
    ensures ModuleInstruction(m)[0] == match m
      case Originals => 'A' case FullExegesis => 'F' case Homiletic => 'C'
      case Teacher => 'P' case Dictionary => 'L' case Syntax => 'A'
    ensures m == Originals ==> ModuleInstruction(m)[9] == 's'
    ensures m == Syntax ==> ModuleInstruction(m)[9] == ' '
  {
    match m
    case Originals =>
      StartsWithHead(OriginalsOpening, OriginalsRest);
      assert OriginalsInstruction[0] == 'A' && OriginalsInstruction[9] == 's';
    case FullExegesis =>
      StartsWithHead(FullOpening, FullRest);
      assert FullInstruction[0] == 'F';
    case Homiletic =>
      StartsWithHead(HomileticOpening, HomileticRest);
      assert HomileticInstruction[0] == 'C';
    case Teacher =>
      StartsWithHead(TeacherOpening, TeacherRest);
      assert TeacherInstruction[0] == 'P';
    case Dictionary =>
      StartsWithHead(DictionaryOpening, DictionaryRest);
      assert DictionaryInstruction[0] == 'L';
    case Syntax =>
      StartsWithHead(SyntaxOpening, SyntaxRest);
      assert SyntaxInstruction[0] == 'A' && SyntaxInstruction[9] == ' ';
  }

  /** Each module appends its own instruction. */
  lemma ModuleInstructionsDistinct(a: ExegesisModule, b: ExegesisModule)
    ensures ModuleInstruction(a) == ModuleInstruction(b) ==> a == b
  {
    InstructionOpening(a);
    InstructionOpening(b);
  }

  /** The whole prompt: header, then the instruction, then the closing. */
  function ExegesisPrompt(reference: string, theology: TheologyLine, m: ExegesisModule): string {
    PromptHeader(reference, theology, m) + ModuleInstruction(m) + ClosingSentence
  }

  /** The prompt opens with the fixed header line, quotes the reference,
      names the line, the module and its instruction, and ends with the
      closing sentence. */
  lemma PromptStructure(reference: string, theology: TheologyLine, m: ExegesisModule)
    ensures StartsWith(ExegesisPrompt(reference, theology, m), HeaderOpening)
    ensures Contains(ExegesisPrompt(reference, theology, m), Quoted(reference))
    ensures Contains(ExegesisPrompt(reference, theology, m), theology.Label())
    ensures Contains(ExegesisPrompt(reference, theology, m), LegacyModuleLabel(m))
    ensures Contains(ExegesisPrompt(reference, theology, m), ModuleInstruction(m))
    ensures EndsWith(ExegesisPrompt(reference, theology, m), ClosingSentence)
  {
    NineParts(HeaderOpening, Quoted(reference), TheologyCaption, theology.Label(), ModuleCaption,
      LegacyModuleLabel(m), InstructionsCaption, ModuleInstruction(m), ClosingSentence);
  }

  /** Where each part of a nine-part concatenation sits. */
  lemma NineParts(a: string, b: string, c: string, d: string, e: string, f: string, g: string, h: string, i: string)
    ensures var s := a + b + c + d + e + f + g + h + i;
      StartsWith(s, a) && Contains(s, b) && Contains(s, d) && Contains(s, f) && Contains(s, h) && EndsWith(s, i)
  {
    var ab := a + b;
    var abc := ab + c;
    var abcd := abc + d;
    var abcde := abcd + e;
    var abcdef := abcde + f;
    var abcdefg := abcdef + g;
    var abcdefgh := abcdefg + h;
    var s := abcdefgh + i;
    assert s[..|a|] == a;
    assert Contains(b, b) by { assert b[..|b|] == b; }
    assert Contains(d, d) by { assert d[..|d|] == d; }
    assert Contains(f, f) by { assert f[..|f|] == f; }
    assert Contains(h, h) by { assert h[..|h|] == h; }
    ContainsPrepend(a, b, b);
    ContainsExtend(ab, c, b);
    ContainsExtend(abc, d, b);
    ContainsPrepend(abc, d, d);
    ContainsExtend(abcd, e, b);
    ContainsExtend(abcd, e, d);
    ContainsExtend(abcde, f, b);
    ContainsExtend(abcde, f, d);
    ContainsPrepend(abcde, f, f);
    ContainsExtend(abcdef, g, b);
    ContainsExtend(abcdef, g, d);
    ContainsExtend(abcdef, g, f);
    ContainsExtend(abcdefg, h, b);
    ContainsExtend(abcdefg, h, d);
    ContainsExtend(abcdefg, h, f);
    ContainsPrepend(abcdefg, h, h);
    ContainsExtend(abcdefgh, i, b);
    ContainsExtend(abcdefgh, i, d);
    ContainsExtend(abcdefgh, i, f);
    ContainsExtend(abcdefgh, i, h);
    assert s[|s| - |i|..] == i;
  }

  predicate EndsWith(s: string, suffix: string) {
    |suffix| <= |s| && s[|s| - |suffix|..] == suffix
  }

  /** `generateExegesis`: the prompt it sends (none without a client), and
      the text it resolves to. */
  datatype ServiceRun = ServiceRun(sent: Option<string>, reply: string)

  function GenerateExegesis(apiKey: Option<string>, reference: string, theology: TheologyLine,
                            m: ExegesisModule, outcome: GenAiOutcome): ServiceRun
  {
    if !HasClient(apiKey) then ServiceRun(None, MissingKeyReply)
    else
      var reply := match outcome
        case Answered(text) => if text.Some? && text.value != "" then text.value else EmptyTextReply
        case Threw => ConnectionErrorReply;
      ServiceRun(Some(ExegesisPrompt(reference, theology, m)), reply)
  }

  /** Without a key nothing is sent and the fixed notice is returned; with
      one, the full prompt is sent and the reply is the model's non-empty
      text or one of two notices. The reply is never empty. */
  lemma GenerateExegesisOutcomes(apiKey: Option<string>, reference: string, theology: TheologyLine,
                                 m: ExegesisModule, outcome: GenAiOutcome)
    ensures var run := GenerateExegesis(apiKey, reference, theology, m, outcome);
      && run.reply != ""
      && (run.sent.None? <==> !HasClient(apiKey))
      && (!HasClient(apiKey) ==> run.reply == MissingKeyReply)
      && (HasClient(apiKey) ==> run.sent == Some(ExegesisPrompt(reference, theology, m)))
      && (HasClient(apiKey) && outcome.Answered? && outcome.text.Some? && outcome.text.value != ""
          ==> run.reply == outcome.text.value)
      && (HasClient(apiKey) && outcome.Answered? && (outcome.text.None? || outcome.text.value == "")
          ==> run.reply == EmptyTextReply)
      && (HasClient(apiKey) && outcome.Threw? ==> run.reply == ConnectionErrorReply)
  {
  }
}
