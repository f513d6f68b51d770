/** The announcement board of src/pages/Announcements.tsx: six fixed notices, a search and priority filter, and badges. */
module AnnouncementsPage {
  import opened Seqs
  import opened Text

  datatype Announcement = Announcement(id: string, title: string, content: string, priority: string, createdBy: string)

  const AllAnnouncements: seq<Announcement> := [
    Announcement("1", "Registration Deadline Extended",
      "Due to high demand, we have extended the registration deadline to March 10, 2024. Don't miss this opportunity to be part of the Innovation Summit!",
      "high", "Event Organizers"),
    Announcement("2", "Workshop Schedule Released",
      "The detailed workshop schedule is now available. Check out the exciting sessions on AI in Education, Digital Classroom Management, and Student Engagement Strategies.",
      "medium", "Program Committee"),
    Announcement("3", "Parking Information Update",
      "Additional parking spaces have been secured at the nearby community center. Free shuttle service will be provided every 15 minutes during event hours.",
      "low", "Logistics Team"),
    Announcement("4", "Featured Speaker Announcement",
      "We are excited to announce Dr. Sarah Johnson as our keynote speaker. She will present on \"The Future of Educational Technology\" on Day 1.",
      "high", "Event Organizers"),
    Announcement("5", "Lunch Menu Available",
      "The complete lunch menu for both days is now available for download. We have options for all dietary requirements including vegetarian, vegan, and gluten-free meals.",
      "low", "Catering Team"),
    Announcement("6", "Student Showcase Applications Open",
      "Students can now apply to present their innovative projects during the Student Showcase session. Applications are due by March 5, 2024.",
      "medium", "Student Committee")
  ]

  const Priorities: seq<string> := ["All", "High", "Medium", "Low"]

  /** No priority, 'All', or the same priority up to case. */
  predicate MatchesPriority(a: Announcement, priority: string) {
    priority == "" || priority == "All" || Lower(a.priority) == Lower(priority)
  }

  predicate Matches(a: Announcement, term: string, priority: string) {
    (Includes(a.title, term) || Includes(a.content, term)) && MatchesPriority(a, priority)
  }

  /** `filteredAnnouncements`. */
  function Filtered(anns: seq<Announcement>, term: string, priority: string): seq<Announcement> {
    Filter(anns, (a: Announcement) => Matches(a, term, priority))
  }

  /** A notice is listed iff it passes both tests; the list keeps the fixed order. */
  lemma FilteredSpec(anns: seq<Announcement>, term: string, priority: string, a: Announcement)
    ensures a in Filtered(anns, term, priority) <==> a in anns && Matches(a, term, priority)
    ensures IsSubsequence(Filtered(anns, term, priority), anns)
  {
    FilterMembership(anns, (x: Announcement) => Matches(x, term, priority), a);
    FilterIsSubsequence(anns, (x: Announcement) => Matches(x, term, priority));
  }

  /** "N announcement(s) found". */
  function CountLabel(anns: seq<Announcement>, term: string, priority: string): string {
    FoundLabel(|Filtered(anns, term, priority)|, "announcement")
  }

  /** With no search, the 'High' choice keeps a notice of a known priority iff that priority is "high". */
  lemma MatchesHigh(a: Announcement)
    requires a.priority == "high" || a.priority == "medium" || a.priority == "low"
    ensures Matches(a, "", "High") <==> a.priority == "high"
  {
    IncludesEmpty(a.title);
    assert Lower("High") == "high";
    if a.priority != "high" {
      assert Lower(a.priority) == a.priority;
    }
  }

  /** Over six notices ranked high, medium, low, high, low, medium, the 'High' choice keeps the first and fourth. */
  lemma HighKeepsFirstAndFourth(s: seq<Announcement>)
    requires |s| == 6
    requires s[0].priority == "high" && s[1].priority == "medium" && s[2].priority == "low"
    requires s[3].priority == "high" && s[4].priority == "low" && s[5].priority == "medium"
    ensures Filtered(s, "", "High") == [s[0], s[3]]
  {
    var p := (a: Announcement) => Matches(a, "", "High");
    MatchesHigh(s[0]);
    MatchesHigh(s[1]);
    MatchesHigh(s[2]);
    MatchesHigh(s[3]);
    MatchesHigh(s[4]);
    MatchesHigh(s[5]);
    assert Filter(s[5..], p) == [];
    assert Filter(s[4..], p) == [];
    assert Filter(s[3..], p) == [s[3]];
    assert Filter(s[2..], p) == [s[3]];
    assert Filter(s[1..], p) == [s[3]];
  }

  /** Choosing 'High' with no search keeps exactly the two high-priority notices, in order. */
  lemma HighKeepsHigh()
    ensures Filtered(AllAnnouncements, "", "High") == [AllAnnouncements[0], AllAnnouncements[3]]
  {
    HighKeepsFirstAndFourth(AllAnnouncements);
  }

  /** The priority filter ignores case: upper-casing a choice other than 'All' keeps the same notices. */
  lemma PriorityIgnoresCase(a: Announcement, priority: string)
    requires priority != "All"
    ensures MatchesPriority(a, Upper(priority)) == MatchesPriority(a, priority)
  {
    assert Lower(Upper(priority)) == Lower(priority);
    if |priority| == 3 {
      assert Upper(priority)[1] != "All"[1];
    }
  }

  datatype Icon = AlertCircle | Info | CheckCircle

  /** `getPriorityIcon`. */
  function PriorityIcon(priority: string): (icon: Icon)
    ensures icon == AlertCircle <==> priority == "high"
    ensures icon == CheckCircle <==> priority == "low"
    ensures icon == Info <==> priority != "high" && priority != "low"
  {
    match priority
    case "high" => AlertCircle
    case "medium" => Info
    case "low" => CheckCircle
    case _ => Info
  }

  const NeutralColor := "bg-neutral-100 text-neutral-700 border-neutral-200"

  /** `getPriorityColor`. */
  function PriorityColor(priority: string): (color: string)
    ensures priority == "high" ==> color == "bg-red-100 text-red-700 border-red-200"
    ensures priority == "medium" ==> color == "bg-accent-100 text-primary-900 border-accent-200"
    ensures priority == "low" ==> color == "bg-green-100 text-green-700 border-green-200"
    ensures priority != "high" && priority != "medium" && priority != "low" ==> color == NeutralColor
  {
    match priority
    case "high" => "bg-red-100 text-red-700 border-red-200"
    case "medium" => "bg-accent-100 text-primary-900 border-accent-200"
    case "low" => "bg-green-100 text-green-700 border-green-200"
    case _ => NeutralColor
  }

  /** The badge: the priority in upper case. */
  function PriorityBadge(priority: string): (text: string)
    ensures |text| == |priority|
    ensures forall k :: 0 <= k < |text| ==> !('a' <= text[k] <= 'z')
    ensures Lower(text) == Lower(priority)
  {
    Upper(priority)
  }
}
