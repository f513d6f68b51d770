/** The committee list of src/pages/Committees.tsx, filtered over the fixture committees. */
module CommitteesPage {
  import opened Seqs
  import opened Text
  import opened Fixtures

  /** The search term is in the name, the description or a topic area, ignoring case. */
  predicate MatchesSearch(c: Committee, term: string) {
    Includes(c.name, term) || Includes(c.description, term) || AnyIncludes(c.topicAreas, term)
  }

  /** No grade chosen, or the grade is one of the eligible grades. */
  predicate MatchesGrade(c: Committee, grade: string) {
    grade == "" || grade in c.eligibleGrades
  }

  /** `filteredCommittees`. */
  function Filtered(cs: seq<Committee>, term: string, grade: string): seq<Committee> {
    Filter(cs, (c: Committee) => MatchesSearch(c, term) && MatchesGrade(c, grade))
  }

  /** A committee is listed iff it passes both tests; the list keeps the fixture order. */
  lemma FilteredSpec(cs: seq<Committee>, term: string, grade: string, c: Committee)
    ensures c in Filtered(cs, term, grade) <==>
      && c in cs
      && (Includes(c.name, term) || Includes(c.description, term)
          || exists k :: 0 <= k < |c.topicAreas| && Includes(c.topicAreas[k], term))
      && (grade == "" || exists k :: 0 <= k < |c.eligibleGrades| && c.eligibleGrades[k] == grade)
    ensures IsSubsequence(Filtered(cs, term, grade), cs)
  {
    FilterMembership(cs, (x: Committee) => MatchesSearch(x, term) && MatchesGrade(x, grade), c);
    FilterIsSubsequence(cs, (x: Committee) => MatchesSearch(x, term) && MatchesGrade(x, grade));
    AnyIncludesSpec(c.topicAreas, term);
  }

  /** With no search and no grade all three committees are listed, in order. */
  lemma FilteredNoFilter()
    ensures Filtered(MockCommittees, "", "") == MockCommittees
  {
    forall k | 0 <= k < |MockCommittees| ensures MatchesSearch(MockCommittees[k], "") {
      IncludesEmpty(MockCommittees[k].name);
    }
    FilterAllPass(MockCommittees, (c: Committee) => MatchesSearch(c, "") && MatchesGrade(c, ""));
  }

  /** Grade 9 keeps the Security Council and the General Assembly and drops ECOSOC, open to grades 10 to 12 only. */
  lemma NinthGradeExcludesEcosoc()
    ensures Filtered(MockCommittees, "", "9") == [Unsc, GeneralAssembly]
  {
    IncludesEmpty(Unsc.name);
    IncludesEmpty(GeneralAssembly.name);
    assert "9" in Unsc.eligibleGrades && "9" in GeneralAssembly.eligibleGrades;
    assert "9" !in Ecosoc.eligibleGrades;
    var p := (c: Committee) => MatchesSearch(c, "") && MatchesGrade(c, "9");
    assert MockCommittees == [Unsc] + [GeneralAssembly] + [Ecosoc];
    FilterAppend([Unsc] + [GeneralAssembly], [Ecosoc], p);
    FilterAppend([Unsc], [GeneralAssembly], p);
  }

  /** "N committee(s) found". */
  function CountLabel(cs: seq<Committee>, term: string, grade: string): string {
    FoundLabel(|Filtered(cs, term, grade)|, "committee")
  }
}
