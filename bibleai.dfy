/** The AI chat screen (client/BibleAI.tsx): three conversation modes,
    each mapped to a persona for the model and a label on its answers,
    and a send that is split at its `await` into the part that runs
    before the model answers and the part that runs after. */
module BibleAI {
  import opened Wrappers
  import opened Text
  import opened CoreTypes
  import CoreGemini

  datatype AIMode = Counselor | Theologian | Studies {
    /** The persona handed to the model. */
    function Persona(): string {
      match this
      case Counselor => "Conselheiro"
      case Theologian => "Teólogo"
      case Studies => "Professor"
    }

    /** `getModeLabel`: the label shown above the mode's answers. */
    function Label(): string {
      match this
      case Counselor => "Conselheiro"
      case Theologian => "Teólogo"
      case Studies => "Estudos"
    }

    /** The five suggested questions of the mode. */
    function Suggestions(): seq<string> {
      match this
      case Counselor => [
        "Estou me sentindo muito ansioso",
        "Estou com problemas no casamento",
        "Como consigo perdoar alguém?",
        "Como lidar com o luto?",
        "Qual é o meu propósito de vida?"]
      case Theologian => [
        "Explique a doutrina da Predestinação",
        "Como explicar a Trindade?",
        "A salvação pode ser perdida?",
        "Quais os sinais do fim dos tempos?",
        "O que é o batismo no Espírito Santo?"]
      case Studies => [
        "Estudo detalhado de Romanos 8",
        "Análise do Salmo 23",
        "As Parábolas de Jesus",
        "Estudo sobre o Sermão do Monte",
        "O significado do Tabernáculo"]
    }
  }

  /** Modes have distinct personas and distinct labels; the persona and
      the label coincide except in study mode. */
  lemma ModeNamesDistinct(a: AIMode, b: AIMode)
    ensures a.Persona() == b.Persona() ==> a == b
    ensures a.Label() == b.Label() ==> a == b
    ensures a.Persona() == a.Label() <==> a != Studies
  {
    if a != b {
      assert a.Persona()[0] != b.Persona()[0];
      assert a.Label()[0] != b.Label()[0];
    }
    if a == Studies {
      assert a.Persona()[0] != a.Label()[0];
    }
  }

  /** A suggestion starts with a letter, so tapping one is never refused
      as a blank question. */
  lemma SuggestionsAreNotBlank(m: AIMode, k: nat)
    requires k < |m.Suggestions()|
    ensures |m.Suggestions()| == 5
    ensures Trim(m.Suggestions()[k]) != ""
  {
    var s := m.Suggestions()[k];
    assert 'A' <= s[0] <= 'Z';
    CapitalIsNotWhitespace(s[0]);
    TrimEmptyIffBlank(s);
  }

  datatype Role = FromUser | FromAi

  datatype ChatMessage = ChatMessage(id: string, role: Role, content: string, modeLabel: Option<string>)

  const Greeting: ChatMessage :=
    ChatMessage("1", FromAi, "Olá! Selecione um modo acima e uma linha teológica. Como posso ajudar?", Some("IA"))

  /** The system message written when the mode changes. */
  function ModeNotice(mode: AIMode, id: string): (m: ChatMessage)
    ensures m.role == FromAi && m.modeLabel == Some("Sistema")
    ensures Contains(m.content, mode.Label())
  {
    var head := "Modo alterado para: ";
    var tail := ". Selecione uma sugestão abaixo ou digite sua dúvida.";
    ContainsInfix(head, mode.Label(), tail);
    ChatMessage(id, FromAi, head + mode.Label() + tail, Some("Sistema"))
  }

  /** What `handleSend` holds across its `await`: the question and the
      mode and line that were current when it was sent. */
  datatype PendingQuestion = PendingQuestion(question: string, theology: TheologyLine, mode: AIMode)

  /** The request a pending question sends to the model. */
  function RequestFor(p: PendingQuestion): (r: CoreGemini.AiRequest)
    ensures r.prompt == p.question
    ensures Contains(r.systemInstruction, p.mode.Persona())
    ensures Contains(r.systemInstruction, p.theology.Label())
  {
    CoreGemini.AskRequest(p.question, p.theology, p.mode.Persona())
  }

  /** The answer message: the model's reply under the label of the mode the
      question was sent in, whatever the mode is now. */
  function AnswerMessage(p: PendingQuestion, outcome: CoreGemini.AiOutcome, id: string): (m: ChatMessage)
    ensures m.role == FromAi && m.modeLabel == Some(p.mode.Label())
    ensures outcome.Responded? ==> m.content == outcome.text
    ensures outcome.Failed? ==> m.content == CoreGemini.AskApology
  {
    ChatMessage(id, FromAi, CoreGemini.AskReply(outcome), Some(p.mode.Label()))
  }

  /** `!text.trim() || isLoading`: the guard of `handleSend`, which is also
      the send button's `disabled`. */
  predicate SendRefused(text: string, isLoading: bool) {
    Trim(text) == "" || isLoading
  }

  /** A send is refused exactly for a whitespace-only text or while an
      answer is awaited. */
  lemma SendRefusedMeaning(text: string, isLoading: bool)
    ensures SendRefused(text, isLoading) <==> IsBlank(text) || isLoading
  {
    TrimEmptyIffBlank(text);
  }

  datatype ChatState = ChatState(
    activeMode: AIMode, theology: TheologyLine, messages: seq<ChatMessage>,
    input: string, isLoading: bool)

  class ChatScreen {
    var activeMode: AIMode
    var theology: TheologyLine
    var messages: seq<ChatMessage>
    var input: string
    var isLoading: bool

    function State(): ChatState
      reads this
    {
      ChatState(activeMode, theology, messages, input, isLoading)
    }

    /** The conversation starts with the greeting, in counselor mode. */
    predicate Valid()
      reads this
    {
      |messages| >= 1 && messages[0] == Greeting
    }

    constructor ()
      ensures State() == ChatState(Counselor, Calvinist, [Greeting], "", false)
      ensures Valid()
    {
      activeMode := Counselor;
      theology := Calvinist;
      messages := [Greeting];
      input := "";
      isLoading := false;
    }

    method SetInput(text: string)
      modifies this
      ensures State() == old(State()).(input := text)
    {
      input := text;
    }

    method SetTheology(t: TheologyLine)
      modifies this
      ensures State() == old(State()).(theology := t)
    {
      theology := t;
    }

    /** `handleModeChange`: switch and announce the new mode. */
    method ModeChange(mode: AIMode, id: string)
      requires Valid()
      modifies this
      ensures Valid()
      ensures State() == old(State()).(activeMode := mode, messages := old(messages) + [ModeNotice(mode, id)])
    {
      activeMode := mode;
      messages := messages + [ModeNotice(mode, id)];
    }

    /** `handleSend` up to its `await`: a refused text changes nothing;
        otherwise the question is shown, the input cleared and the screen
        waits. `text` is the typed input or a tapped suggestion. */
    method BeginSend(text: string, id: string) returns (pending: Option<PendingQuestion>)
      requires Valid()
      modifies this
      ensures Valid()
      ensures pending.None? <==> SendRefused(text, old(isLoading))
      ensures pending.None? ==> State() == old(State())
      ensures pending.Some? ==>
        pending.value == PendingQuestion(text, old(theology), old(activeMode))
        && State() == old(State()).(messages := old(messages) + [ChatMessage(id, FromUser, text, None)],
                                    input := "", isLoading := true)
    {
      if Trim(text) == "" || isLoading {
        return None;
      }
      messages := messages + [ChatMessage(id, FromUser, text, None)];
      input := "";
      isLoading := true;
      pending := Some(PendingQuestion(text, theology, activeMode));
    }

    /** `handleSend` after its `await`: the answer is appended after
        whatever was appended meanwhile, and the screen stops waiting. */
    method FinishSend(p: PendingQuestion, outcome: CoreGemini.AiOutcome, id: string)
      requires Valid()
      modifies this
      ensures Valid()
      ensures State() == old(State()).(messages := old(messages) + [AnswerMessage(p, outcome, id)], isLoading := false)
    {
      messages := messages + [AnswerMessage(p, outcome, id)];
      isLoading := false;
    }
  }

  /** A question and its answer with no other event in between: both are
      appended in order, and a second send is refused while it runs. */
  method Exchange(chat: ChatScreen, text: string, outcome: CoreGemini.AiOutcome, id1: string, id2: string)
      returns (answered: bool, secondRefused: bool)
    requires chat.Valid()
    modifies chat
    ensures chat.Valid()
    ensures answered <==> !SendRefused(text, old(chat.isLoading))
    ensures answered ==> secondRefused
    ensures chat.theology == old(chat.theology) && chat.activeMode == old(chat.activeMode)
    ensures answered ==> (chat.messages == old(chat.messages)
      + [ChatMessage(id1, FromUser, text, None),
         AnswerMessage(PendingQuestion(text, old(chat.theology), old(chat.activeMode)), outcome, id2)]
      && !chat.isLoading && chat.input == "")
  {
    var pending := chat.BeginSend(text, id1);
    if pending.None? {
      return false, false;
    }
    var again := chat.BeginSend(text, id1);
    secondRefused := again.None?;
    chat.FinishSend(pending.value, outcome, id2);
    answered := true;
  }
}
