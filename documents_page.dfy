/**
 * The document centre of src/pages/Dashboard/Documents.tsx: six fixed
 * documents, a search and type filter, the stat cards, label formatting,
 * and the icon, colour and action chosen for each type and status.
 */
module DocumentsPage {
  import opened Seqs
  import opened Text

  datatype Document = Document(id: string, title: string, kind: string, description: string, status: string)

  const AllDocuments: seq<Document> := [
    Document("1", "Registration Confirmation Letter", "confirmation",
      "Official confirmation of your school's registration for SchoolMUN 2024", "available"),
    Document("2", "UNSC Study Guide", "study_guide",
      "Comprehensive study guide for UN Security Council delegates", "available"),
    Document("3", "General Assembly Study Guide", "study_guide",
      "Study materials for General Assembly committee", "available"),
    Document("4", "Participation Certificate", "certificate",
      "Certificate of participation (available after conference)", "pending"),
    Document("5", "Conference Schedule", "other",
      "Detailed schedule of all conference events and sessions", "available"),
    Document("6", "Award Certificates", "certificate",
      "Individual award certificates for outstanding delegates", "pending")
  ]

  predicate Matches(d: Document, term: string, kind: string) {
    (Includes(d.title, term) || Includes(d.description, term)) && (kind == "" || d.kind == kind)
  }

  /** `filteredDocuments`. */
  function Filtered(ds: seq<Document>, term: string, kind: string): seq<Document> {
    Filter(ds, (d: Document) => Matches(d, term, kind))
  }

  /** A document is listed iff it passes both tests; the list keeps the fixed order. */
  lemma FilteredSpec(ds: seq<Document>, term: string, kind: string, d: Document)
    ensures d in Filtered(ds, term, kind) <==> d in ds && Matches(d, term, kind)
    ensures IsSubsequence(Filtered(ds, term, kind), ds)
  {
    FilterMembership(ds, (x: Document) => Matches(x, term, kind), d);
    FilterIsSubsequence(ds, (x: Document) => Matches(x, term, kind));
  }

  /** "N document(s) found". */
  function CountLabel(ds: seq<Document>, term: string, kind: string): string {
    FoundLabel(|Filtered(ds, term, kind)|, "document")
  }

  /** The "Available Downloads", "Pending" and "Certificates" cards. */
  function AvailableCount(ds: seq<Document>): nat {
    Count(ds, (d: Document) => d.status == "available")
  }

  function PendingCount(ds: seq<Document>): nat {
    Count(ds, (d: Document) => d.status == "pending")
  }

  function CertificateCount(ds: seq<Document>): nat {
    Count(ds, (d: Document) => d.kind == "certificate")
  }

  /** No document is both available and pending, so those two cards never add up to more than the total. */
  lemma StatsBounded(ds: seq<Document>)
    ensures AvailableCount(ds) + PendingCount(ds) <= |ds|
    ensures CertificateCount(ds) <= |ds|
  {
    CountDisjoint(ds, (d: Document) => d.status == "available", (d: Document) => d.status == "pending");
    CountAtMostLength(ds, (d: Document) => d.kind == "certificate");
  }

  /** The cards over the fixture: six documents, four available, two pending, two certificates. */
  lemma FixtureStats()
    ensures |AllDocuments| == 6
    ensures AvailableCount(AllDocuments) == 4 && PendingCount(AllDocuments) == 2
    ensures CertificateCount(AllDocuments) == 2
  {
  }

  /** The status badge: the status with its first letter in upper case. */
  function StatusLabel(status: string): (text: string)
    ensures |text| == |status|
    ensures |status| > 0 ==> text[0] == UpperChar(status[0]) && text[1..] == status[1..]
  {
    Capitalize(status)
  }

  /** The type line: the first '_' becomes a space, then the first letter is upper-cased. */
  function TypeLabel(kind: string): (text: string)
    ensures |text| == |kind|
    ensures |kind| > 0 ==> text[0] == UpperChar(if kind[0] == '_' then ' ' else kind[0])
    ensures forall k :: 0 < k < |kind| ==> text[k] == if k == IndexOf(kind, '_') then ' ' else kind[k]
  {
    Capitalize(ReplaceFirst(kind, '_', ' '))
  }

  /** 'available' is shown as 'Available'. */
  lemma AvailableLabel()
    ensures StatusLabel("available") == "Available"
  {
    assert UpperChar('a') == 'A';
  }

  /** 'study_guide' is shown as 'Study guide'. */
  lemma StudyGuideLabel()
    ensures TypeLabel("study_guide") == "Study guide"
  {
    var kind := "study_guide";
    assert kind[5] == '_';
    assert forall k :: 0 <= k < 5 ==> kind[k] != '_';
    assert IndexOf(kind, '_') == 5;
    var text := TypeLabel(kind);
    assert text[0] == UpperChar('s') == 'S';
    assert forall k :: 0 <= k < |text| ==> text[k] == "Study guide"[k];
  }

  datatype Icon = FileText | Award | BookOpen

  /** `getDocumentIcon`. */
  function DocumentIcon(kind: string): (icon: Icon)
    ensures icon == Award <==> kind == "certificate"
    ensures icon == BookOpen <==> kind == "study_guide"
    ensures kind != "certificate" && kind != "study_guide" ==> icon == FileText
  {
    match kind
    case "confirmation" => FileText
    case "certificate" => Award
    case "study_guide" => BookOpen
    case _ => FileText
  }

  const NeutralType := "bg-neutral-100 text-neutral-600"
  const NeutralStatus := "bg-neutral-100 text-neutral-700"

  /** `getDocumentColor`. */
  function DocumentColor(kind: string): (color: string)
    ensures kind == "confirmation" ==> color == "bg-blue-100 text-blue-600"
    ensures kind == "certificate" ==> color == "bg-accent-100 text-primary-900"
    ensures kind == "study_guide" ==> color == "bg-green-100 text-green-600"
    ensures kind != "confirmation" && kind != "certificate" && kind != "study_guide" ==> color == NeutralType
  {
    match kind
    case "confirmation" => "bg-blue-100 text-blue-600"
    case "certificate" => "bg-accent-100 text-primary-900"
    case "study_guide" => "bg-green-100 text-green-600"
    case _ => NeutralType
  }

  /** `getStatusColor`. */
  function StatusColor(status: string): (color: string)
    ensures status == "available" ==> color == "bg-green-100 text-green-700"
    ensures status == "pending" ==> color == "bg-accent-100 text-primary-900"
    ensures status == "processing" ==> color == "bg-blue-100 text-blue-700"
    ensures status != "available" && status != "pending" && status != "processing" ==> color == NeutralStatus
  {
    match status
    case "available" => "bg-green-100 text-green-700"
    case "pending" => "bg-accent-100 text-primary-900"
    case "processing" => "bg-blue-100 text-blue-700"
    case _ => NeutralStatus
  }

  /** What the card offers: download and preview, a wait note, or a processing note. */
  datatype Actions = DownloadAndPreview | AvailableAfterConference | Processing

  function ActionsFor(status: string): (a: Actions)
    ensures a == DownloadAndPreview <==> status == "available"
    ensures a == AvailableAfterConference <==> status == "pending"
    ensures a == Processing <==> status != "available" && status != "pending"
  {
    if status == "available" then DownloadAndPreview
    else if status == "pending" then AvailableAfterConference
    else Processing
  }
}
