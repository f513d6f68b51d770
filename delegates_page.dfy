/**
 * The delegate roster of src/pages/Dashboard/Delegates.tsx: the search and
 * grade filter, the add, edit and delete handlers, the committee-name lookup
 * and the four stat counts. `confirm()` becomes a boolean parameter and the
 * `Date.now()` id a string parameter.
 */
module DelegatesPage {
  import opened Common
  import opened Seqs
  import opened Text
  import Fixtures

  datatype Delegate = Delegate(
    id: string,
    name: string,
    grade: string,
    email: string,
    isMinor: bool,
    parentName: Option<string>,
    parentContact: Option<string>,
    committeeId: Option<string>,
    countryId: Option<string>,
    notes: Option<string>)

  /** `Partial<Delegate>`: every field may be left out. */
  datatype Patch = Patch(
    id: Option<string>,
    name: Option<string>,
    grade: Option<string>,
    email: Option<string>,
    isMinor: Option<bool>,
    parentName: Option<string>,
    parentContact: Option<string>,
    committeeId: Option<string>,
    countryId: Option<string>,
    notes: Option<string>)

  const EmptyPatch := Patch(None, None, None, None, None, None, None, None, None, None)

  /** The add form as first shown and as reset after an add: empty texts and the minor box ticked. */
  const DefaultDraft := Patch(None, Some(""), Some(""), Some(""), Some(true), Some(""), Some(""), None, None, Some(""))

  /** The three delegates the roster starts with. */
  const InitialDelegates: seq<Delegate> := [
    Delegate("1", "Emma Thompson", "11", "emma.thompson@student.lincolnhs.edu", true,
      Some("Robert Thompson"), Some("+1 (555) 234-5678"), Some("1"), None,
      Some("Experienced delegate, participated in 3 previous MUNs")),
    Delegate("2", "Michael Chen", "12", "michael.chen@student.lincolnhs.edu", false,
      None, None, Some("2"), None, Some("First-time delegate, very enthusiastic")),
    Delegate("3", "Sarah Williams", "10", "sarah.williams@student.lincolnhs.edu", true,
      Some("Jennifer Williams"), Some("+1 (555) 345-6789"), Some("1"), None, None)
  ]

  /** A JavaScript string that is truthy: present and not empty. */
  predicate Filled(s: Option<string>) {
    s.Some? && s.value != ""
  }

  /** The search term is in the name or the email, ignoring case, and the grade filter is unset or equal. */
  predicate Matches(d: Delegate, term: string, grade: string) {
    (Includes(d.name, term) || Includes(d.email, term)) && (grade == "" || d.grade == grade)
  }

  /** `filteredDelegates`. */
  function Filtered(ds: seq<Delegate>, term: string, grade: string): seq<Delegate> {
    Filter(ds, (d: Delegate) => Matches(d, term, grade))
  }

  /** A delegate is listed iff it is on the roster and matches; the list keeps roster order. */
  lemma FilteredSpec(ds: seq<Delegate>, term: string, grade: string, d: Delegate)
    ensures d in Filtered(ds, term, grade) <==> d in ds && Matches(d, term, grade)
    ensures IsSubsequence(Filtered(ds, term, grade), ds)
  {
    FilterMembership(ds, (x: Delegate) => Matches(x, term, grade), d);
    FilterIsSubsequence(ds, (x: Delegate) => Matches(x, term, grade));
  }

  /** With an empty search and no grade, the whole roster is listed. */
  lemma FilteredNoFilter(ds: seq<Delegate>)
    ensures Filtered(ds, "", "") == ds
  {
    forall k | 0 <= k < |ds| ensures Matches(ds[k], "", "") {
      IncludesEmpty(ds[k].name);
    }
    FilterAllPass(ds, (x: Delegate) => Matches(x, "", ""));
  }

  /** The add form holds a name, an email and a grade. */
  predicate Complete(draft: Patch) {
    Filled(draft.name) && Filled(draft.email) && Filled(draft.grade)
  }

  /** The delegate `handleAddDelegate` builds from a complete form. */
  function FromDraft(draft: Patch, id: string): (d: Delegate)
    requires Complete(draft)
    ensures d.id == id && d.name == draft.name.value && d.email == draft.email.value && d.grade == draft.grade.value
    ensures d.isMinor <==> draft.isMinor == Some(true)
    ensures d.committeeId.None? && d.countryId.None?
    ensures d.parentName == draft.parentName && d.parentContact == draft.parentContact && d.notes == draft.notes
  {
    Delegate(id, draft.name.value, draft.grade.value, draft.email.value,
      draft.isMinor.Some? && draft.isMinor.value,
      draft.parentName, draft.parentContact, None, None, draft.notes)
  }

  /** Takes the patch's value where it has one and the old value elsewhere. */
  function Pick<T>(patch: Option<T>, current: T): (r: T)
    ensures patch.Some? ==> r == patch.value
    ensures patch.None? ==> r == current
  {
    if patch.Some? then patch.value else current
  }

  function PickOptional<T>(patch: Option<T>, current: Option<T>): (r: Option<T>)
    ensures patch.Some? ==> r == patch
    ensures patch.None? ==> r == current
  {
    if patch.Some? then patch else current
  }

  /** `{ ...delegate, ...updatedDelegate }`. */
  function Merge(d: Delegate, p: Patch): Delegate {
    Delegate(Pick(p.id, d.id), Pick(p.name, d.name), Pick(p.grade, d.grade), Pick(p.email, d.email),
      Pick(p.isMinor, d.isMinor), PickOptional(p.parentName, d.parentName),
      PickOptional(p.parentContact, d.parentContact), PickOptional(p.committeeId, d.committeeId),
      PickOptional(p.countryId, d.countryId), PickOptional(p.notes, d.notes))
  }

  /** A merge overrides exactly the fields the patch holds and keeps every other one. */
  lemma MergeSpec(d: Delegate, p: Patch)
    ensures p == EmptyPatch ==> Merge(d, p) == d
    ensures Merge(Merge(d, p), p) == Merge(d, p)
    ensures p.id.None? ==> Merge(d, p).id == d.id
    ensures p.id.Some? ==> Merge(d, p).id == p.id.value
    ensures p.name.None? ==> Merge(d, p).name == d.name
    ensures p.name.Some? ==> Merge(d, p).name == p.name.value
    ensures p.grade.None? ==> Merge(d, p).grade == d.grade
    ensures p.grade.Some? ==> Merge(d, p).grade == p.grade.value
    ensures p.email.None? ==> Merge(d, p).email == d.email
    ensures p.email.Some? ==> Merge(d, p).email == p.email.value
    ensures p.isMinor.None? ==> Merge(d, p).isMinor == d.isMinor
    ensures p.isMinor.Some? ==> Merge(d, p).isMinor == p.isMinor.value
    ensures p.parentName.None? ==> Merge(d, p).parentName == d.parentName
    ensures p.parentName.Some? ==> Merge(d, p).parentName == p.parentName
    ensures p.parentContact.None? ==> Merge(d, p).parentContact == d.parentContact
    ensures p.parentContact.Some? ==> Merge(d, p).parentContact == p.parentContact
    ensures p.committeeId.None? ==> Merge(d, p).committeeId == d.committeeId
    ensures p.committeeId.Some? ==> Merge(d, p).committeeId == p.committeeId
    ensures p.countryId.None? ==> Merge(d, p).countryId == d.countryId
    ensures p.countryId.Some? ==> Merge(d, p).countryId == p.countryId
    ensures p.notes.None? ==> Merge(d, p).notes == d.notes
    ensures p.notes.Some? ==> Merge(d, p).notes == p.notes
  {
  }

  /** The patched roster: every record with the id merged, the others as they were. */
  function EditAll(ds: seq<Delegate>, id: string, p: Patch): (r: seq<Delegate>)
    ensures |r| == |ds|
    ensures forall k :: 0 <= k < |ds| ==> r[k] == if ds[k].id == id then Merge(ds[k], p) else ds[k]
  {
    seq(|ds|, k requires 0 <= k < |ds| => if ds[k].id == id then Merge(ds[k], p) else ds[k])
  }

  /** The roster without the records that have the id. */
  function RemoveId(ds: seq<Delegate>, id: string): seq<Delegate> {
    Filter(ds, (d: Delegate) => d.id != id)
  }

  /** Removal drops every record with the id and keeps all the others, in order. */
  lemma RemoveIdSpec(ds: seq<Delegate>, id: string, d: Delegate)
    ensures d in RemoveId(ds, id) <==> d in ds && d.id != id
    ensures multiset(RemoveId(ds, id))[d] == if d.id != id then multiset(ds)[d] else 0
    ensures IsSubsequence(RemoveId(ds, id), ds)
  {
    FilterMembership(ds, (x: Delegate) => x.id != id, d);
    FilterMultiplicity(ds, (x: Delegate) => x.id != id, d);
    FilterIsSubsequence(ds, (x: Delegate) => x.id != id);
  }

  /** Index of the first committee with the id. */
  function FindCommittee(cs: seq<Fixtures.Committee>, id: string): Option<nat> {
    FindFirst(cs, (c: Fixtures.Committee) => c.id == id)
  }

  const NotAssigned := "Not assigned"
  const UnknownCommittee := "Unknown Committee"

  /** `getCommitteeName` over a committee list. */
  function CommitteeName(cs: seq<Fixtures.Committee>, committeeId: Option<string>): (name: string)
    ensures !Filled(committeeId) ==> name == NotAssigned
    ensures Filled(committeeId) && FindCommittee(cs, committeeId.value).None? ==> name == UnknownCommittee
    ensures Filled(committeeId) && FindCommittee(cs, committeeId.value).Some? ==>
      var c := cs[FindCommittee(cs, committeeId.value).value];
      name == if c.name != "" then c.name else UnknownCommittee
  {
    if !Filled(committeeId) then NotAssigned
    else
      match FindCommittee(cs, committeeId.value)
      case None => UnknownCommittee
      case Some(i) => if cs[i].name != "" then cs[i].name else UnknownCommittee
  }

  /** With the fixtures, the three committee ids name their committees and any other id is unknown. */
  lemma CommitteeNamesOfFixtures(other: string)
    requires other != "" && other != "1" && other != "2" && other != "3"
    ensures CommitteeName(Fixtures.MockCommittees, Some("1")) == "United Nations Security Council"
    ensures CommitteeName(Fixtures.MockCommittees, Some("3")) == "Economic and Social Council"
    ensures CommitteeName(Fixtures.MockCommittees, Some(other)) == UnknownCommittee
    ensures CommitteeName(Fixtures.MockCommittees, Some("")) == NotAssigned
  {
    assert Fixtures.MockCommittees[0].id == "1";
    assert Fixtures.MockCommittees[2].id == "3" && Fixtures.MockCommittees[1].id != "3";
  }

  /** The "Assigned", "Minors" and "With email" cards. */
  function Assigned(ds: seq<Delegate>): nat {
    Count(ds, (d: Delegate) => Filled(d.committeeId))
  }

  function Minors(ds: seq<Delegate>): nat {
    Count(ds, (d: Delegate) => d.isMinor)
  }

  function WithEmail(ds: seq<Delegate>): nat {
    Count(ds, (d: Delegate) => d.email != "")
  }

  /** No card counts more delegates than the total card shows. */
  lemma StatsBounded(ds: seq<Delegate>)
    ensures Assigned(ds) <= |ds| && Minors(ds) <= |ds| && WithEmail(ds) <= |ds|
  {
    CountAtMostLength(ds, (d: Delegate) => Filled(d.committeeId));
    CountAtMostLength(ds, (d: Delegate) => d.isMinor);
    CountAtMostLength(ds, (d: Delegate) => d.email != "");
  }

  /** The page state. */
  class Delegates {
    var delegates: seq<Delegate>
    var isAdding: bool
    var editing: Option<string>
    var searchTerm: string
    var filterGrade: string
    var draft: Patch

    constructor ()
      ensures delegates == InitialDelegates && !isAdding && editing.None?
      ensures searchTerm == "" && filterGrade == "" && draft == DefaultDraft
    {
      delegates := InitialDelegates;
      isAdding := false;
      editing := None;
      searchTerm := "";
      filterGrade := "";
      draft := DefaultDraft;
    }

    /** The rows on screen. */
    function Visible(): seq<Delegate>
      reads this
    {
      Filtered(delegates, searchTerm, filterGrade)
    }

    method SetSearchTerm(term: string)
      modifies this
      ensures searchTerm == term
      ensures delegates == old(delegates) && filterGrade == old(filterGrade) && draft == old(draft)
      ensures isAdding == old(isAdding) && editing == old(editing)
    {
      searchTerm := term;
    }

    method SetFilterGrade(grade: string)
      modifies this
      ensures filterGrade == grade
      ensures delegates == old(delegates) && searchTerm == old(searchTerm) && draft == old(draft)
      ensures isAdding == old(isAdding) && editing == old(editing)
    {
      filterGrade := grade;
    }

    /** The "Add Delegate" button opens the form. */
    method OpenAdd()
      modifies this
      ensures isAdding
      ensures delegates == old(delegates) && draft == old(draft) && editing == old(editing)
      ensures searchTerm == old(searchTerm) && filterGrade == old(filterGrade)
    {
      isAdding := true;
    }

    /** The form's close and Cancel buttons hide it and keep what was typed. */
    method CloseAdd()
      modifies this
      ensures !isAdding
      ensures delegates == old(delegates) && draft == old(draft) && editing == old(editing)
      ensures searchTerm == old(searchTerm) && filterGrade == old(filterGrade)
    {
      isAdding := false;
    }

    /** Typing into the add form: `setNewDelegate({...newDelegate, ...})`. */
    method EditDraft(d: Patch)
      modifies this
      ensures draft == d
      ensures delegates == old(delegates) && isAdding == old(isAdding) && editing == old(editing)
      ensures searchTerm == old(searchTerm) && filterGrade == old(filterGrade)
    {
      draft := d;
    }

    /**
     * `handleAddDelegate`: an incomplete form changes nothing; a complete one
     * appends the new delegate, resets the form and closes it.
     */
    method AddDelegate(id: string)
      modifies this
      ensures !Complete(old(draft)) ==>
        delegates == old(delegates) && draft == old(draft) && isAdding == old(isAdding)
      ensures Complete(old(draft)) ==>
        && delegates == old(delegates) + [FromDraft(old(draft), id)]
        && draft == DefaultDraft && !isAdding
      ensures editing == old(editing) && searchTerm == old(searchTerm) && filterGrade == old(filterGrade)
    {
      if Complete(draft) {
        delegates := delegates + [FromDraft(draft, id)];
        draft := DefaultDraft;
        isAdding := false;
      }
    }

    /** The edit button marks a row as being edited. */
    method StartEditing(id: string)
      modifies this
      ensures editing == Some(id)
      ensures delegates == old(delegates) && draft == old(draft) && isAdding == old(isAdding)
      ensures searchTerm == old(searchTerm) && filterGrade == old(filterGrade)
    {
      editing := Some(id);
    }

    /** `handleEditDelegate`: records with the id are merged with the patch, nothing moves, and editing ends. */
    method EditDelegate(id: string, p: Patch)
      modifies this
      ensures delegates == EditAll(old(delegates), id, p)
      ensures editing.None?
      ensures draft == old(draft) && isAdding == old(isAdding)
      ensures searchTerm == old(searchTerm) && filterGrade == old(filterGrade)
    {
      delegates := EditAll(delegates, id, p);
      editing := None;
    }

    /** `handleDeleteDelegate`: a confirmed delete removes the records with the id; a declined one changes nothing. */
    method DeleteDelegate(id: string, confirmed: bool)
      modifies this
      ensures confirmed ==> delegates == RemoveId(old(delegates), id)
      ensures !confirmed ==> delegates == old(delegates)
      ensures forall k :: 0 <= k < |delegates| ==> confirmed ==> delegates[k].id != id
      ensures draft == old(draft) && isAdding == old(isAdding) && editing == old(editing)
      ensures searchTerm == old(searchTerm) && filterGrade == old(filterGrade)
    {
      if confirmed {
        delegates := RemoveId(delegates, id);
      }
    }
  }
}
