/** The dashboard's study search: a query is matched, without regard to
    letter case, against each study's patient name, patient ID and study
    description; a blank query shows every study. */
module StudySearch {
  import opened JsString
  import opened Subsequences
  import opened DicomTypes

  /** The blank-query test: trim leaves nothing, so the string is falsy.
      That is the case exactly when the query is all white space. */
  function IsBlankQuery(query: string): (b: bool)
    ensures b <==> AllWhitespace(query)
  {
    Trim(query) == ""
  }

  /** The filter's predicate: the lower-cased query occurs in the lower-cased
      patient name, patient ID or study description, in the substring reading. */
  function Matches(study: Study, query: string): (b: bool)
    ensures b <==> MatchesSpec(study, query)
  {
    var q := ToLower(query);
    || Includes(ToLower(study.patientName), q)
    || Includes(ToLower(study.patientId), q)
    || Includes(ToLower(study.studyDescription), q)
  }

  /** The reference reading of a match, stated with substrings. */
  ghost predicate MatchesSpec(study: Study, query: string) {
    var q := ToLower(query);
    || IsSubstring(q, ToLower(study.patientName))
    || IsSubstring(q, ToLower(study.patientId))
    || IsSubstring(q, ToLower(study.studyDescription))
  }

  /** The studies that match, in their original order. */
  function Filter(studies: seq<Study>, query: string): (r: seq<Study>)
    ensures |r| <= |studies|
    ensures forall k :: 0 <= k < |r| ==> Matches(r[k], query)
  {
    if studies == [] then []
    else if Matches(studies[0], query) then [studies[0]] + Filter(studies[1..], query)
    else Filter(studies[1..], query)
  }

  /** The list handleSearch shows for a query: everything for an
      all-white-space query, otherwise exactly the studies that contain the
      lower-cased, untrimmed query in one of the three fields, in their
      original order. */
  function Search(studies: seq<Study>, query: string): (r: seq<Study>)
    ensures AllWhitespace(query) ==> r == studies
    ensures !AllWhitespace(query) ==> r == Select(studies, MatchMask(studies, query))
  {
    FilterIsSelection(studies, query);
    if IsBlankQuery(query) then studies else Filter(studies, query)
  }

  /** Which positions of studies the reference reading keeps. */
  ghost function MatchMask(studies: seq<Study>, query: string): (keep: seq<bool>)
    ensures |keep| == |studies|
  {
    seq(|studies|, i requires 0 <= i < |studies| => MatchesSpec(studies[i], query))
  }

  /** The filter keeps exactly the matching positions, in order. */
  lemma {:induction false} FilterIsSelection(studies: seq<Study>, query: string)
    ensures Filter(studies, query) == Select(studies, MatchMask(studies, query))
  {
    if studies != [] {
      assert MatchMask(studies, query)[1..] == MatchMask(studies[1..], query);
      FilterIsSelection(studies[1..], query);
    }
  }

  /** Soundness and completeness of the filter, by membership. */
  lemma {:induction false} FilterMembership(studies: seq<Study>, query: string, x: Study)
    ensures x in Filter(studies, query) <==> x in studies && Matches(x, query)
  {
    if studies != [] {
      FilterMembership(studies[1..], query, x);
      assert studies == [studies[0]] + studies[1..];
    }
  }

  /** What handleSearch shows, by membership: a study is shown exactly when it is in the
      list and the query is blank or matches it. */
  lemma SearchMembership(studies: seq<Study>, query: string, x: Study)
    ensures x in Search(studies, query) <==> x in studies && (AllWhitespace(query) || MatchesSpec(x, query))
  {
    FilterMembership(studies, query, x);
  }

  /** The shown list is a subsequence of all studies, so "N of M studies"
      never has N above M. */
  lemma SearchIsSubsequence(studies: seq<Study>, query: string)
    ensures IsSubsequence(Search(studies, query), studies)
    ensures |Search(studies, query)| <= |studies|
  {
    if IsBlankQuery(query) {
      SubsequenceReflexive(studies);
    } else {
      FilterIsSelection(studies, query);
    }
  }

  /** The filter sees the query only through its lower-cased form. */
  lemma {:induction false} FilterIgnoresCase(studies: seq<Study>, q1: string, q2: string)
    requires ToLower(q1) == ToLower(q2)
    ensures Filter(studies, q1) == Filter(studies, q2)
  {
    if studies != [] {
      FilterIgnoresCase(studies[1..], q1, q2);
    }
  }

  /** Queries that differ only in letter case give the same list. */
  lemma SearchIgnoresCase(studies: seq<Study>, q1: string, q2: string)
    requires ToLower(q1) == ToLower(q2)
    ensures Search(studies, q1) == Search(studies, q2)
  {
    ToLowerKeepsWhitespace(q1);
    ToLowerKeepsWhitespace(q2);
    FilterIgnoresCase(studies, q1, q2);
  }
}
