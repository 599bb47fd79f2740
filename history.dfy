/** The saved-studies screen (client/History.tsx): case-insensitive search,
    delete by id, and reopening a study in the generator. */
module History {
  import opened Text
  import opened Seqs
  import opened CoreTypes
  import opened Storage
  import opened Store

  /** The search predicate: the lower-cased reference or module label
      contains the lower-cased term. */
  predicate MatchesSearch(s: StudyResult, term: string) {
    Contains(ToLower(s.reference), ToLower(term)) || Contains(ToLower(s.studyModule.Label()), ToLower(term))
  }

  /** `filteredStudies`: an order-preserving selection of exactly the
      matching studies; an empty term selects them all. */
  function FilterStudies(studies: seq<StudyResult>, term: string): (r: seq<StudyResult>)
    ensures forall s :: s in r <==> s in studies && MatchesSearch(s, term)
    ensures IsSubsequence(r, studies)
    ensures forall s :: multiset(r)[s] == if MatchesSearch(s, term) then multiset(studies)[s] else 0
    ensures term == "" ==> r == studies
  {
    var keep := (s: StudyResult) => MatchesSearch(s, term);
    FilterIsSubsequence(studies, keep);
    forall s ensures multiset(Filter(studies, keep))[s] == if MatchesSearch(s, term) then multiset(studies)[s] else 0 {
      FilterMultiset(studies, keep, s);
    }
    forall s ensures s in Filter(studies, keep) <==> s in studies && MatchesSearch(s, term) {
      FilterMembership(studies, keep, s);
    }
    EmptyTermKeepsAll(studies, term, keep);
    Filter(studies, keep)
  }

  lemma EmptyTermKeepsAll(studies: seq<StudyResult>, term: string, keep: StudyResult -> bool)
    requires forall s :: keep(s) == MatchesSearch(s, term)
    ensures term == "" ==> Filter(studies, keep) == studies
  {
    if term == "" {
      forall k | 0 <= k < |studies| ensures keep(studies[k]) {
        assert StartsWith(ToLower(studies[k].reference), ToLower(term));
      }
      FilterKeepsAll(studies, keep);
    }
  }

  /** The search is case-insensitive in its term: typing the lower-cased
      term selects the same studies. */
  lemma SearchIgnoresTermCase(studies: seq<StudyResult>, term: string)
    ensures FilterStudies(studies, ToLower(term)) == FilterStudies(studies, term)
  {
    ToLowerIdempotent(term);
    FilterCongruent(studies, (s: StudyResult) => MatchesSearch(s, ToLower(term)),
                    (s: StudyResult) => MatchesSearch(s, term));
  }

  /** The stored list after deleting `id`: every study with that id gone,
      the others kept in order. */
  function RemoveStudy(studies: seq<StudyResult>, id: string): (r: seq<StudyResult>)
    ensures forall s :: s in r <==> s in studies && s.id != id
    ensures IsSubsequence(r, studies)
    ensures forall s :: multiset(r)[s] == if s.id != id then multiset(studies)[s] else 0
  {
    var keep := (s: StudyResult) => s.id != id;
    FilterIsSubsequence(studies, keep);
    forall s ensures multiset(Filter(studies, keep))[s] == if s.id != id then multiset(studies)[s] else 0 {
      FilterMultiset(studies, keep, s);
    }
    forall s ensures s in Filter(studies, keep) <==> s in studies && s.id != id {
      FilterMembership(studies, keep, s);
    }
    Filter(studies, keep)
  }

  class HistoryScreen {
    var studies: seq<StudyResult>
    var searchTerm: string

    /** Mounting loads the saved studies; the search starts empty. */
    constructor (cache: LocalCache)
      ensures studies == cache.studies && searchTerm == ""
    {
      studies := cache.studies;
      searchTerm := "";
    }

    method SetSearchTerm(t: string)
      modifies this
      ensures searchTerm == t && studies == old(studies)
    {
      searchTerm := t;
    }

    function FilteredStudies(): seq<StudyResult>
      reads this
    {
      FilterStudies(studies, searchTerm)
    }

    /** `handleDelete(id)`: when the user confirms, the stored list and the
        screen's list both become the reloaded list without `id`; when the
        user declines, nothing changes. */
    method HandleDelete(cache: LocalCache, id: string, confirmed: bool)
      modifies this, cache
      ensures !confirmed ==> studies == old(studies) && cache.Snapshot() == old(cache.Snapshot())
      ensures confirmed ==>
        cache.Snapshot() == old(cache.Snapshot()).(studies := RemoveStudy(old(cache.studies), id))
        && studies == cache.studies
      ensures searchTerm == old(searchTerm)
    {
      if confirmed {
        var current := cache.studies;
        var updated := RemoveStudy(current, id);
        cache.SetStudies(updated);
        studies := updated;
      }
    }

    /** `handleOpenStudy(study)`: navigates to the generator carrying the study. */
    method HandleOpenStudy(store: AppStore, study: StudyResult)
      modifies store
      ensures store.State() == old(store.State()).(view := Exegesis, viewParams := SavedStudyParams(study))
    {
      store.SetView(Exegesis, SavedStudyParams(study));
    }
  }
}
