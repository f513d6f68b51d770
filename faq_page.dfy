/** The FAQ page of src/pages/FAQ.tsx: search and category filter, expandable answers, the tag strip. */
module FaqPage {
  import opened Seqs
  import opened Text
  import opened Fixtures

  /** The search term is in the question, the answer or a tag, ignoring case. */
  predicate MatchesSearch(faq: FaqEntry, term: string) {
    Includes(faq.question, term) || Includes(faq.answer, term) || AnyIncludes(faq.tags, term)
  }

  /** No category, 'All', or exactly the entry's category. */
  predicate MatchesCategory(faq: FaqEntry, category: string) {
    category == "" || category == "All" || faq.category == category
  }

  predicate Matches(faq: FaqEntry, term: string, category: string) {
    MatchesSearch(faq, term) && MatchesCategory(faq, category)
  }

  /** `filteredFAQs`. */
  function Filtered(faqs: seq<FaqEntry>, term: string, category: string): seq<FaqEntry> {
    Filter(faqs, (f: FaqEntry) => Matches(f, term, category))
  }

  /** An entry is listed iff it passes both tests; the list keeps the fixture order. */
  lemma FilteredSpec(faqs: seq<FaqEntry>, term: string, category: string, faq: FaqEntry)
    ensures faq in Filtered(faqs, term, category) <==>
      && faq in faqs
      && (Includes(faq.question, term) || Includes(faq.answer, term)
          || exists k :: 0 <= k < |faq.tags| && Includes(faq.tags[k], term))
      && (category == "" || category == "All" || faq.category == category)
    ensures IsSubsequence(Filtered(faqs, term, category), faqs)
  {
    FilterMembership(faqs, (f: FaqEntry) => Matches(f, term, category), faq);
    FilterIsSubsequence(faqs, (f: FaqEntry) => Matches(f, term, category));
    AnyIncludesSpec(faq.tags, term);
  }

  /** "N question(s) found". */
  function CountLabel(faqs: seq<FaqEntry>, term: string, category: string): string {
    FoundLabel(|Filtered(faqs, term, category)|, "question")
  }

  /** With no search and no category every entry is listed, in order; 'All' does the same. */
  lemma FilteredNoFilter(faqs: seq<FaqEntry>)
    ensures Filtered(faqs, "", "") == faqs
    ensures Filtered(faqs, "", "All") == faqs
  {
    forall k | 0 <= k < |faqs| ensures Matches(faqs[k], "", "") && Matches(faqs[k], "", "All") {
      IncludesEmpty(faqs[k].question);
    }
    FilterAllPass(faqs, (f: FaqEntry) => Matches(f, "", ""));
    FilterAllPass(faqs, (f: FaqEntry) => Matches(f, "", "All"));
  }

  /** The ids of a list of entries, in order. */
  function Ids(faqs: seq<FaqEntry>): (ids: seq<string>)
    ensures |ids| == |faqs|
    ensures forall k :: 0 <= k < |faqs| ==> ids[k] == faqs[k].id
  {
    seq(|faqs|, k requires 0 <= k < |faqs| => faqs[k].id)
  }

  /** The header strip shows `tags.slice(0, 2)`. */
  function ShownTags(tags: seq<string>): (shown: seq<string>)
    ensures |shown| == if |tags| < 2 then |tags| else 2
    ensures shown == tags[..|shown|]
  {
    if |tags| < 2 then tags else tags[..2]
  }

  /** "+k more" after the shown tags, present only when more than two tags exist. */
  function MoreTags(tags: seq<string>): (more: nat)
    ensures |tags| > 2 ==> more == |tags| - 2
    ensures |tags| <= 2 ==> more == 0
    ensures |ShownTags(tags)| + more == |tags|
  {
    if |tags| > 2 then |tags| - 2 else 0
  }

  /** The page state. */
  class Faq {
    var searchTerm: string
    var selectedCategory: string
    var expandedItems: seq<string>

    constructor ()
      ensures searchTerm == "" && selectedCategory == "" && expandedItems == []
    {
      searchTerm := "";
      selectedCategory := "";
      expandedItems := [];
    }

    /** The entries on screen. */
    function Visible(): seq<FaqEntry>
      reads this
    {
      Filtered(MockFaqs, searchTerm, selectedCategory)
    }

    method SetSearchTerm(term: string)
      modifies this
      ensures searchTerm == term
      ensures selectedCategory == old(selectedCategory) && expandedItems == old(expandedItems)
    {
      searchTerm := term;
    }

    method SetCategory(category: string)
      modifies this
      ensures selectedCategory == category
      ensures searchTerm == old(searchTerm) && expandedItems == old(expandedItems)
    {
      selectedCategory := category;
    }

    /** `toggleExpanded`: close an open answer, or open a closed one after the others. */
    method ToggleExpanded(id: string)
      modifies this
      ensures expandedItems == Toggle(old(expandedItems), id)
      ensures id in expandedItems <==> id !in old(expandedItems)
      ensures forall other :: other != id ==> (other in expandedItems <==> other in old(expandedItems))
      ensures searchTerm == old(searchTerm) && selectedCategory == old(selectedCategory)
    {
      forall other ensures other in Toggle(expandedItems, id) <==> (if other == id then id !in expandedItems else other in expandedItems) {
        ToggleMembership(expandedItems, id, other);
      }
      expandedItems := Toggle(expandedItems, id);
    }

    /** `expandAll`: exactly the listed entries are open, in listed order. */
    method ExpandAll()
      modifies this
      ensures expandedItems == Ids(Visible())
      ensures searchTerm == old(searchTerm) && selectedCategory == old(selectedCategory)
    {
      expandedItems := Ids(Filtered(MockFaqs, searchTerm, selectedCategory));
    }

    /** `collapseAll`: nothing is open. */
    method CollapseAll()
      modifies this
      ensures expandedItems == []
      ensures searchTerm == old(searchTerm) && selectedCategory == old(selectedCategory)
    {
      expandedItems := [];
    }
  }

  /** The fixture entries have distinct ids, so "Expand All" with no filter opens three distinct answers. */
  lemma ExpandAllFixtures()
    ensures Ids(Filtered(MockFaqs, "", "")) == ["1", "2", "3"]
    ensures NoDuplicates(Ids(Filtered(MockFaqs, "", "")))
  {
    FilteredNoFilter(MockFaqs);
  }
}
