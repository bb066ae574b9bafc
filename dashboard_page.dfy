/** The dashboard page: the full study list, the list currently shown, and
    the search handler that replaces the shown list. */
module DashboardPage {
  import opened JsString
  import opened Subsequences
  import opened DicomTypes
  import opened StudySearch
  import opened MockData

  /** The page's two pieces of state. Both start as the demonstration
      studies; only a search changes the shown list, and nothing changes the
      full list. */
  class Dashboard {
    var studies: seq<Study>
    var filteredStudies: seq<Study>

    /** The shown list is always taken, in order, from the full list. */
    ghost predicate Valid()
      reads this
    {
      IsSubsequence(filteredStudies, studies)
    }

    /** Both lists start as the demonstration studies. */
    constructor ()
      ensures Valid()
      ensures studies == MockStudies && filteredStudies == MockStudies
    {
      studies := MockStudies;
      filteredStudies := MockStudies;
      SubsequenceReflexive(MockStudies);
    }

    /** handleSearch: a blank query restores the full list, any other query
        shows the matching studies; the full list is never touched. */
    method HandleSearch(query: string)
      requires Valid()
      modifies this`filteredStudies
      ensures Valid()
      ensures studies == old(studies)
      ensures filteredStudies == Search(studies, query)
    {
      if IsBlankQuery(query) {
        filteredStudies := studies;
      } else {
        filteredStudies := Filter(studies, query);
      }
      SearchIsSubsequence(studies, query);
    }

    /** The header's "N of M studies" counts; N never exceeds M. */
    method Header() returns (shown: nat, total: nat)
      requires Valid()
      ensures shown == |filteredStudies| && total == |studies|
      ensures shown <= total
    {
      SubsequenceLength(filteredStudies, studies);
      shown := |filteredStudies|;
      total := |studies|;
    }
  }

  /** Which demonstration studies "CT" matches: only study "2". */
  lemma MockMatchesCt()
    ensures !Matches(MockStudies[0], "CT") && Matches(MockStudies[1], "CT")
    ensures !Matches(MockStudies[2], "CT") && !Matches(MockStudies[3], "CT")
  {
    MockQueriesLowered();
    MockStudy1Lowered();
    MockStudy2Lowered();
    MockStudy3Lowered();
    MockStudy4Lowered();
    MockStudy1Includes();
    MockStudy2Includes();
    MockStudy3Includes();
    MockStudy4Includes();
  }

  /** "demo" matches no demonstration study. */
  lemma MockMatchesDemo()
    ensures !Matches(MockStudies[0], "demo") && !Matches(MockStudies[1], "demo")
    ensures !Matches(MockStudies[2], "demo") && !Matches(MockStudies[3], "demo")
  {
    MockQueriesLowered();
    MockStudy1Lowered();
    MockStudy2Lowered();
    MockStudy3Lowered();
    MockStudy4Lowered();
    MockStudy1Includes();
    MockStudy2Includes();
    MockStudy3Includes();
    MockStudy4Includes();
  }

  /** "CT" finds only Jane Smith's CT Abdomen study. */
  lemma MockSearchCt()
    ensures Search(MockStudies, "CT") == [MockStudies[1]]
  {
    assert !IsWhitespace("CT"[0]);
    MockMatchesCt();
  }

  /** "demo" finds nothing: the page's "No studies found" state. */
  lemma MockSearchDemo()
    ensures Search(MockStudies, "demo") == []
  {
    assert !IsWhitespace("demo"[0]);
    MockMatchesDemo();
  }

  /** Study "2" matches "CT" but not " CT ". */
  lemma MockStudy2MatchesCt()
    ensures Matches(MockStudies[1], "CT") && !Matches(MockStudies[1], " CT ")
  {
    MockQueriesLowered();
    MockStudy2Lowered();
    MockStudy2Includes();
    MockStudy2IncludesPadded();
  }

  /** " CT " has letters between its spaces, so trim does not empty it. */
  lemma PaddedCtNotBlank()
    ensures !IsBlankQuery(" CT ")
  {
    assert !IsWhitespace(" CT "[1]);
  }

  /** trim only decides blankness: " CT " is searched for with its spaces,
      so it misses study "2", which "CT" finds (MockSearchCt). */
  lemma MockSearchKeepsSpaces()
    ensures Search([MockStudies[1]], " CT ") == []
  {
    PaddedCtNotBlank();
    MockStudy2MatchesCt();
  }

  /** A query of spaces and a tab shows the whole list, unchanged. */
  lemma MockSearchBlank()
    ensures Search(MockStudies, " \t ") == MockStudies
  {
    assert " \t "[0] == ' ' && " \t "[1] == '\t' && " \t "[2] == ' ';
  }
}
