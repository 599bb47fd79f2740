/** The study generator screen (client/Exegesis.tsx): a configuration form
    (reference, line, module), a generate action split at its `await`, and
    the result screen with its save action. */
module Exegesis {
  import opened Wrappers
  import opened Text
  import opened CoreTypes
  import opened Storage
  import CoreGemini
  import Paragraphs

  /** What `handleExecute` holds across its `await`. */
  datatype ExegesisJob = ExegesisJob(reference: string, theology: TheologyLine, studyModule: ExegesisModule)

  /** The request a job sends; the module goes out as its label. */
  function JobRequest(job: ExegesisJob): (r: CoreGemini.AiRequest)
    ensures Contains(r.prompt, Quoted(job.reference))
    ensures Contains(r.systemInstruction, job.theology.Label())
  {
    CoreGemini.ExegesisRequest(job.reference, job.theology, job.studyModule.Label())
  }

  /** `disabled={!reference || isLoading}` of the generate button. */
  predicate GenerateDisabled(reference: string, isLoading: bool) {
    reference == "" || isLoading
  }

  /** `if (result)`: a present, non-empty result shows the result screen. */
  predicate ShowsResult(result: Option<string>) {
    result.Some? && result.value != ""
  }

  /** A study line is a heading when it starts with `##` or `**`. */
  predicate IsHeading(line: string) {
    StartsWith(line, "##") || StartsWith(line, "**")
  }

  const Marks: set<char> := {'#', '*'}

  /** The result screen's paragraphs. */
  function ResultParagraphs(result: string): seq<Paragraphs.Paragraph> {
    Paragraphs.Render(result, IsHeading, Marks)
  }

  /** The paragraphs hold the whole study with every `#` and `*` deleted,
      and none of them shows a mark. */
  lemma ResultParagraphsFaithful(result: string)
    ensures JoinLines(Paragraphs.Texts(ResultParagraphs(result))) == Strip(result, Marks)
    ensures forall k :: 0 <= k < |ResultParagraphs(result)| ==>
      '#' !in ResultParagraphs(result)[k].text && '*' !in ResultParagraphs(result)[k].text
  {
    Paragraphs.RenderKeepsText(result, IsHeading, Marks);
  }

  datatype ExegesisState = ExegesisState(
    reference: string, theology: TheologyLine, studyModule: ExegesisModule,
    isLoading: bool, result: Option<string>)

  class ExegesisScreen {
    var reference: string
    var theology: TheologyLine
    var studyModule: ExegesisModule
    var isLoading: bool
    var result: Option<string>

    function State(): ExegesisState
      reads this
    {
      ExegesisState(reference, theology, studyModule, isLoading, result)
    }

    constructor ()
      ensures State() == ExegesisState("", Calvinist, FullExegesis, false, None)
    {
      reference := "";
      theology := Calvinist;
      studyModule := FullExegesis;
      isLoading := false;
      result := None;
    }

    method SetReference(r: string)
      modifies this
      ensures State() == old(State()).(reference := r)
    {
      reference := r;
    }

    method SetTheology(t: TheologyLine)
      modifies this
      ensures State() == old(State()).(theology := t)
    {
      theology := t;
    }

    method SetModule(m: ExegesisModule)
      modifies this
      ensures State() == old(State()).(studyModule := m)
    {
      studyModule := m;
    }

    /** The result screen's back button. */
    method CloseResult()
      modifies this
      ensures State() == old(State()).(result := None)
    {
      result := None;
    }

    /** `handleExecute` up to its `await`: an empty reference is ignored
        (the handler does not test `isLoading`; only the button does). */
    method BeginExecute() returns (job: Option<ExegesisJob>)
      modifies this
      ensures job.None? <==> old(reference) == ""
      ensures job.None? ==> State() == old(State())
      ensures job.Some? ==> (job.value == ExegesisJob(old(reference), old(theology), old(studyModule))
        && State() == old(State()).(isLoading := true))
    {
      if reference == "" {
        return None;
      }
      isLoading := true;
      job := Some(ExegesisJob(reference, theology, studyModule));
    }

    /** `handleExecute` after its `await`: the answer becomes the result,
        which always opens the result screen. */
    method FinishExecute(outcome: CoreGemini.AiOutcome)
      modifies this
      ensures State() == old(State()).(result := Some(CoreGemini.ExegesisReply(outcome)), isLoading := false)
      ensures ShowsResult(result)
    {
      CoreGemini.ExegesisReplyOutcomes(outcome);
      result := Some(CoreGemini.ExegesisReply(outcome));
      isLoading := false;
    }

    /** `handleSave`: nothing without a result; otherwise the study is
        appended to the local history under the form's current fields. */
    method HandleSave(cache: LocalCache, nowId: string, nowIso: string) returns (saved: bool)
      modifies cache
      ensures saved <==> ShowsResult(result)
      ensures !saved ==> cache.Snapshot() == old(cache.Snapshot())
      ensures saved ==> cache.Snapshot() == old(cache.Snapshot()).(studies := old(cache.studies)
        + [StudyResult(nowId, reference, theology, studyModule, result.value, nowIso)])
    {
      if !ShowsResult(result) {
        return false;
      }
      cache.SaveStudy(StudyResult(nowId, reference, theology, studyModule, result.value, nowIso));
      saved := true;
    }
  }
}
