/** The older study generator (views/ExegesisView.tsx): the same form over
    the older types and gateway; generating clears the previous result
    first, and saving hands the study to the caller instead of storing it. */
module ExegesisView {
  import opened Wrappers
  import opened Text
  import opened CoreTypes
  import opened LegacyTypes
  import GeminiService
  import Paragraphs

  datatype LegacyJob = LegacyJob(reference: string, theology: TheologyLine, studyModule: ExegesisModule)

  /** What a job sends: the gateway's prompt, or nothing without a key. */
  function JobSent(apiKey: Option<string>, job: LegacyJob, outcome: GeminiService.GenAiOutcome): Option<string> {
    GeminiService.GenerateExegesis(apiKey, job.reference, job.theology, job.studyModule, outcome).sent
  }

  /** What a job resolves to. */
  function JobReply(apiKey: Option<string>, job: LegacyJob, outcome: GeminiService.GenAiOutcome): (r: string)
    ensures r != ""
  {
    GeminiService.GenerateExegesisOutcomes(apiKey, job.reference, job.theology, job.studyModule, outcome);
    GeminiService.GenerateExegesis(apiKey, job.reference, job.theology, job.studyModule, outcome).reply
  }

  /** A line is a heading when it starts with `#`; only `#` is deleted. */
  predicate IsHeading(line: string) {
    StartsWith(line, "#")
  }

  const Marks: set<char> := {'#'}

  function ResultParagraphs(result: string): seq<Paragraphs.Paragraph> {
    Paragraphs.Render(result, IsHeading, Marks)
  }

  /** The paragraphs hold the whole study with every `#` deleted; `*` is
      left in place, unlike on the newer screen. */
  lemma ResultParagraphsFaithful(result: string)
    ensures JoinLines(Paragraphs.Texts(ResultParagraphs(result))) == Strip(result, Marks)
    ensures forall k :: 0 <= k < |ResultParagraphs(result)| ==> '#' !in ResultParagraphs(result)[k].text
    ensures Strip("**", Marks) == "**"
  {
    Paragraphs.RenderKeepsText(result, IsHeading, Marks);
  }

  datatype LegacyState = LegacyState(
    reference: string, theology: TheologyLine, studyModule: ExegesisModule,
    isLoading: bool, result: Option<string>)

  class LegacyExegesisScreen {
    var reference: string
    var theology: TheologyLine
    var studyModule: ExegesisModule
    var isLoading: bool
    var result: Option<string>

    function State(): LegacyState
      reads this
    {
      LegacyState(reference, theology, studyModule, isLoading, result)
    }

    constructor ()
      ensures State() == LegacyState("", Calvinist, FullExegesis, false, None)
    {
      reference := "";
      theology := Calvinist;
      studyModule := FullExegesis;
      isLoading := false;
      result := None;
    }

    method SetReference(r: string)
      modifies this
      ensures State() == old(State()).(reference := r)
    {
      reference := r;
    }

    method SetTheology(t: TheologyLine)
      modifies this
      ensures State() == old(State()).(theology := t)
    {
      theology := t;
    }

    method SetModule(m: ExegesisModule)
      modifies this
      ensures State() == old(State()).(studyModule := m)
    {
      studyModule := m;
    }

    method CloseResult()
      modifies this
      ensures State() == old(State()).(result := None)
    {
      result := None;
    }

    /** `handleExecute` up to its `await`: an empty reference is ignored;
        otherwise the screen waits and the previous result is dropped. */
    method BeginExecute() returns (job: Option<LegacyJob>)
      modifies this
      ensures job.None? <==> old(reference) == ""
      ensures job.None? ==> State() == old(State())
      ensures job.Some? ==> (job.value == LegacyJob(old(reference), old(theology), old(studyModule))
        && State() == old(State()).(isLoading := true, result := None))
    {
      if reference == "" {
        return None;
      }
      isLoading := true;
      result := None;
      job := Some(LegacyJob(reference, theology, studyModule));
    }

    /** `handleExecute` after its `await`: the reply, never empty, becomes
        the result and opens the result screen. */
    method FinishExecute(apiKey: Option<string>, job: LegacyJob, outcome: GeminiService.GenAiOutcome)
      modifies this
      ensures State() == old(State()).(result := Some(JobReply(apiKey, job, outcome)), isLoading := false)
      ensures result.Some? && result.value != ""
    {
      result := Some(JobReply(apiKey, job, outcome));
      isLoading := false;
    }

    /** `handleSave`: the study handed to `onSaveStudy`, if there is a
        non-empty result; the screen itself does not change. */
    method HandleSave(nowId: string, nowMillis: int) returns (study: Option<LegacyStudy>)
      ensures study.None? <==> (result.None? || result.value == "")
      ensures study.Some? ==> study.value == LegacyStudy(nowId, reference, theology, studyModule, result.value, nowMillis)
    {
      if result.None? || result.value == "" {
        return None;
      }
      study := Some(LegacyStudy(nowId, reference, theology, studyModule, result.value, nowMillis));
    }
  }
}
