/** The resource library of src/pages/Resources.tsx: six fixed resources, a search and category filter, and a featured row. */
module ResourcesPage {
  import opened Seqs
  import opened Text

  datatype Resource = Resource(id: string, title: string, description: string, category: string, kind: string, featured: bool)

  const AllResources: seq<Resource> := [
    Resource("1", "MUN Procedures and Rules", "Comprehensive guide to parliamentary procedure and debate rules",
      "Rules & Procedures", "PDF", true),
    Resource("2", "UNSC Study Guide 2024", "Complete study guide for Security Council delegates",
      "Study Guides", "PDF", true),
    Resource("3", "Resolution Writing Workshop", "Video tutorial on crafting effective UN resolutions",
      "Video Tutorials", "Video", false),
    Resource("4", "Delegate Preparation Timeline", "Step-by-step preparation schedule for delegates",
      "Preparation", "PDF", false),
    Resource("5", "Sample Position Papers", "Examples of well-written position papers from previous conferences",
      "Examples", "PDF", false),
    Resource("6", "Public Speaking for MUN", "Tips and techniques for effective public speaking in committee",
      "Video Tutorials", "Video", false)
  ]

  const Categories: seq<string> := ["All", "Study Guides", "Rules & Procedures", "Video Tutorials", "Preparation", "Examples"]

  /** The value of a category option: '' for 'All', the category itself otherwise. */
  function OptionValue(category: string): (v: string)
    ensures category == "All" ==> v == ""
    ensures category != "All" ==> v == category
  {
    if category == "All" then "" else category
  }

  predicate Matches(r: Resource, term: string, category: string) {
    && (Includes(r.title, term) || Includes(r.description, term))
    && (category == "" || category == "All" || r.category == category)
  }

  /** `filteredResources`. */
  function Filtered(rs: seq<Resource>, term: string, category: string): seq<Resource> {
    Filter(rs, (r: Resource) => Matches(r, term, category))
  }

  /** A resource is listed iff it passes both tests; the list keeps the fixed order. */
  lemma FilteredSpec(rs: seq<Resource>, term: string, category: string, r: Resource)
    ensures r in Filtered(rs, term, category) <==> r in rs && Matches(r, term, category)
    ensures IsSubsequence(Filtered(rs, term, category), rs)
  {
    FilterMembership(rs, (x: Resource) => Matches(x, term, category), r);
    FilterIsSubsequence(rs, (x: Resource) => Matches(x, term, category));
  }

  /** With no search, the option 'All' (value '') lists all six resources in order. */
  lemma AllOptionKeepsAll()
    ensures Filtered(AllResources, "", OptionValue("All")) == AllResources
    ensures |Filtered(AllResources, "", OptionValue("All"))| == 6
  {
    forall k | 0 <= k < |AllResources| ensures Matches(AllResources[k], "", "") {
      IncludesEmpty(AllResources[k].title);
    }
    FilterAllPass(AllResources, (r: Resource) => Matches(r, "", ""));
  }

  /** The featured row: the resources marked featured, whatever the search and category. */
  function Featured(rs: seq<Resource>): (f: seq<Resource>)
    ensures forall k :: 0 <= k < |f| ==> f[k].featured
  {
    Filter(rs, (r: Resource) => r.featured)
  }

  /** A resource is featured-listed iff it is marked featured; in the fixture that is the first two. */
  lemma FeaturedSpec(r: Resource)
    ensures r in Featured(AllResources) <==> r in AllResources && r.featured
    ensures Featured(AllResources) == AllResources[..2]
  {
    FilterMembership(AllResources, (x: Resource) => x.featured, r);
    var p := (x: Resource) => x.featured;
    assert AllResources == AllResources[..2] + AllResources[2..];
    FilterAppend(AllResources[..2], AllResources[2..], p);
    FilterAllPass(AllResources[..2], p);
    FilterNonePass(AllResources[2..], p);
  }

  /** "N resource(s) found". */
  function CountLabel(rs: seq<Resource>, term: string, category: string): string {
    FoundLabel(|Filtered(rs, term, category)|, "resource")
  }
}
