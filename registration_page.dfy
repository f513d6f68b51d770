/**
 * The school registration wizard of src/pages/Registration.tsx: the
 * `schoolSchema` rules, the three-step counter and the ordered list of
 * committee preferences that clicking a committee toggles.
 */
module RegistrationPage {
  import opened Common
  import opened Forms
  import opened Seqs
  import opened Text
  import Fixtures

  datatype SchoolForm = SchoolForm(
    schoolName: string,
    address: string,
    coordinatorName: string,
    coordinatorEmail: string,
    coordinatorPhone: string,
    numberOfDelegates: int,
    committeePreferences: seq<string>,
    specialRequirements: Option<string>,
    agreedToTerms: bool)

  const DefaultDelegates := 5
  const MinPreferences := 3

  /** The form as first rendered: five delegates, no preferences, empty text inputs. */
  const DefaultForm := SchoolForm("", "", "", "", "", DefaultDelegates, [], None, false)

  /** `z.number().min(1).max(50)`: the lower bound's message for too few, the upper bound's for too many. */
  function DelegatesCheck(n: int): (c: Check)
    ensures c.field == "numberOfDelegates"
    ensures c.ok <==> 1 <= n <= 50
    ensures n < 1 ==> c.message == "At least 1 delegate required"
    ensures n > 50 ==> c.message == "Maximum 50 delegates"
  {
    Check("numberOfDelegates", 1 <= n <= 50,
      if n < 1 then "At least 1 delegate required" else "Maximum 50 delegates")
  }

  function SchoolChecks(f: SchoolForm, isEmail: string -> bool): seq<Check> {
    [ Check("schoolName", MinLength(f.schoolName, 2), "School name is required"),
      Check("address", MinLength(f.address, 5), "Address is required"),
      Check("coordinatorName", MinLength(f.coordinatorName, 2), "Coordinator name is required"),
      Check("coordinatorEmail", isEmail(f.coordinatorEmail), "Valid email is required"),
      Check("coordinatorPhone", MinLength(f.coordinatorPhone, 10), "Valid phone number is required"),
      DelegatesCheck(f.numberOfDelegates),
      Check("committeePreferences", |f.committeePreferences| >= MinPreferences,
        "Please select at least 3 committee preferences"),
      Check("agreedToTerms", f.agreedToTerms, "You must agree to the terms") ]
  }

  /** The errors of `schoolSchema`. */
  function SchoolErrors(f: SchoolForm, isEmail: string -> bool): Errors {
    ErrorsOf(SchoolChecks(f, isEmail))
  }

  predicate Accepted(f: SchoolForm, isEmail: string -> bool) {
    && |f.schoolName| >= 2 && |f.address| >= 5 && |f.coordinatorName| >= 2
    && isEmail(f.coordinatorEmail) && |f.coordinatorPhone| >= 10
    && 1 <= f.numberOfDelegates <= 50 && |f.committeePreferences| >= MinPreferences
    && f.agreedToTerms
  }

  /** The eight rules guard eight different fields. */
  lemma SchoolFieldsDistinct(f: SchoolForm, isEmail: string -> bool)
    ensures DistinctFields(SchoolChecks(f, isEmail))
  {
    var checks := SchoolChecks(f, isEmail);
    forall i, j | 0 <= i < j < |checks| ensures checks[i].field != checks[j].field {
      if i == 3 && j == 4 {
        assert checks[i].field[11] != checks[j].field[11];
      } else {
        assert |checks[i].field| != |checks[j].field|;
      }
    }
  }

  /** The rules for the school and its coordinator. */
  lemma SchoolDetailErrors(f: SchoolForm, isEmail: string -> bool)
    ensures var e := SchoolErrors(f, isEmail);
      && ("schoolName" in e <==> |f.schoolName| < 2)
      && ("address" in e <==> |f.address| < 5)
      && ("coordinatorName" in e <==> |f.coordinatorName| < 2)
      && ("coordinatorEmail" in e <==> !isEmail(f.coordinatorEmail))
      && ("coordinatorPhone" in e <==> |f.coordinatorPhone| < 10)
      && ("schoolName" in e ==> e["schoolName"] == "School name is required")
      && ("address" in e ==> e["address"] == "Address is required")
      && ("coordinatorName" in e ==> e["coordinatorName"] == "Coordinator name is required")
      && ("coordinatorEmail" in e ==> e["coordinatorEmail"] == "Valid email is required")
      && ("coordinatorPhone" in e ==> e["coordinatorPhone"] == "Valid phone number is required")
  {
    var checks := SchoolChecks(f, isEmail);
    SchoolFieldsDistinct(f, isEmail);
    ErrorOfCheck(checks, 0);
    ErrorOfCheck(checks, 1);
    ErrorOfCheck(checks, 2);
    ErrorOfCheck(checks, 3);
    ErrorOfCheck(checks, 4);
  }

  /** The delegate count lies in 1..50, at least three committees are chosen, and the terms are accepted. */
  lemma DelegationErrors(f: SchoolForm, isEmail: string -> bool)
    ensures var e := SchoolErrors(f, isEmail);
      && ("numberOfDelegates" in e <==> !(1 <= f.numberOfDelegates <= 50))
      && (f.numberOfDelegates < 1 ==> e["numberOfDelegates"] == "At least 1 delegate required")
      && (f.numberOfDelegates > 50 ==> e["numberOfDelegates"] == "Maximum 50 delegates")
      && ("committeePreferences" in e <==> |f.committeePreferences| < MinPreferences)
      && ("committeePreferences" in e ==>
            e["committeePreferences"] == "Please select at least 3 committee preferences")
      && ("agreedToTerms" in e <==> !f.agreedToTerms)
      && ("agreedToTerms" in e ==> e["agreedToTerms"] == "You must agree to the terms")
  {
    var checks := SchoolChecks(f, isEmail);
    SchoolFieldsDistinct(f, isEmail);
    ErrorOfCheck(checks, 5);
    ErrorOfCheck(checks, 6);
    ErrorOfCheck(checks, 7);
  }

  /** The special requirements are optional, and the form passes exactly when it meets every rule. */
  lemma SchoolErrorsSpec(f: SchoolForm, isEmail: string -> bool)
    ensures var e := SchoolErrors(f, isEmail);
      && "specialRequirements" !in e
      && (e == map[] <==> Accepted(f, isEmail))
  {
    var checks := SchoolChecks(f, isEmail);
    SchoolFieldsDistinct(f, isEmail);
    NoErrorsOf(checks);
    forall k | 0 <= k < |checks| ensures checks[k].field != "specialRequirements" { }
    AllChecksPass(f, isEmail);
  }

  lemma AllChecksPass(f: SchoolForm, isEmail: string -> bool)
    ensures (forall k :: 0 <= k < |SchoolChecks(f, isEmail)| ==> SchoolChecks(f, isEmail)[k].ok)
      <==> Accepted(f, isEmail)
  {
    var checks := SchoolChecks(f, isEmail);
    if Accepted(f, isEmail) {
      forall k | 0 <= k < |checks| ensures checks[k].ok { }
    } else {
      assert !checks[0].ok || !checks[1].ok || !checks[2].ok || !checks[3].ok
        || !checks[4].ok || !checks[5].ok || !checks[6].ok || !checks[7].ok;
    }
  }

  /** The defaults: five delegates pass their rule, and the empty preference list fails its minimum. */
  lemma DefaultsSpec(isEmail: string -> bool)
    ensures DefaultForm.numberOfDelegates == 5 && DefaultForm.committeePreferences == []
    ensures "numberOfDelegates" !in SchoolErrors(DefaultForm, isEmail)
    ensures "committeePreferences" in SchoolErrors(DefaultForm, isEmail)
  {
    DelegationErrors(DefaultForm, isEmail);
  }

  /** The "#n" badge: the position of the committee in the preference list, counted from 1. */
  function Rank(prefs: seq<string>, id: string): (r: nat)
    requires id in prefs
    ensures 1 <= r <= |prefs| && prefs[r - 1] == id
  {
    Position(prefs, id) + 1
  }

  /** Without duplicates, ranks follow the order of selection: the i-th chosen committee is ranked i + 1. */
  lemma RankIsSelectionOrder(prefs: seq<string>, i: nat)
    requires NoDuplicates(prefs) && i < |prefs|
    ensures Rank(prefs, prefs[i]) == i + 1
  {
    var r := Rank(prefs, prefs[i]);
    assert prefs[r - 1] == prefs[i];
  }

  /** "✓ Minimum requirement met" is shown exactly when the schema accepts the preference count. */
  predicate MinimumMet(prefs: seq<string>) {
    |prefs| >= MinPreferences
  }

  lemma MinimumMetSpec(f: SchoolForm, isEmail: string -> bool)
    ensures MinimumMet(f.committeePreferences) <==> "committeePreferences" !in SchoolErrors(f, isEmail)
  {
    DelegationErrors(f, isEmail);
  }

  /** "Selected: n committee(s)". */
  function SelectedLabel(prefs: seq<string>): (text: string)
    ensures |text| >= 10 + |NatToString(|prefs|)| && text[..10] == "Selected: "
    ensures text[10..10 + |NatToString(|prefs|)|] == NatToString(|prefs|)
    ensures ParseNat(text[10..10 + |NatToString(|prefs|)|]) == |prefs|
    ensures |prefs| == 1 ==> text[10 + |NatToString(|prefs|)|..] == " committee"
    ensures |prefs| != 1 ==> text[10 + |NatToString(|prefs|)|..] == " committees"
    ensures |text| > 0 && (text[|text| - 1] == 's' <==> |prefs| != 1)
  {
    var digits := NatToString(|prefs|);
    var text := "Selected: " + digits + " committee" + PluralSuffix(|prefs|);
    assert text[10..10 + |digits|] == digits;
    assert text[10 + |digits|..] == " committee" + PluralSuffix(|prefs|);
    ParseNatToString(|prefs|);
    text
  }

  /** The ids of the fixture committees. */
  function CommitteeIds(): (ids: seq<string>)
    ensures ids == ["1", "2", "3"]
  {
    seq(|Fixtures.MockCommittees|, i requires 0 <= i < |Fixtures.MockCommittees| => Fixtures.MockCommittees[i].id)
  }

  /** With the three fixture committees, meeting the minimum means choosing every committee. */
  lemma MinimumMeansAllCommittees(prefs: seq<string>)
    requires NoDuplicates(prefs)
    requires forall k :: 0 <= k < |prefs| ==> prefs[k] in CommitteeIds()
    requires MinimumMet(prefs)
    ensures |prefs| == 3
    ensures forall id :: id in CommitteeIds() ==> id in prefs
  {
    var ids := {"1", "2", "3"};
    var chosen := set k | 0 <= k < |prefs| :: prefs[k];
    assert chosen <= ids;
    DistinctCardinality(prefs);
    assert |chosen| == |prefs|;
    assert |ids| == 3;
    SubsetCardinality(chosen, ids);
    if chosen != ids {
      SubsetStrict(chosen, ids);
    }
    forall id | id in CommitteeIds() ensures id in prefs {
      assert id in chosen;
    }
  }

  /** A list without duplicates has as many distinct elements as entries. */
  lemma {:induction false} DistinctCardinality(s: seq<string>)
    requires NoDuplicates(s)
    ensures |set k | 0 <= k < |s| :: s[k]| == |s|
  {
    if s != [] {
      var tail := s[..|s| - 1];
      assert NoDuplicates(tail);
      DistinctCardinality(tail);
      var before := set k | 0 <= k < |tail| :: tail[k];
      var all := set k | 0 <= k < |s| :: s[k];
      assert all == before + {s[|s| - 1]};
      assert s[|s| - 1] !in before;
    }
  }

  lemma SubsetCardinality(a: set<string>, b: set<string>)
    requires a <= b
    ensures |a| <= |b|
  {
    if a != {} {
      var x :| x in a;
      SubsetCardinality(a - {x}, b - {x});
    }
  }

  lemma SubsetStrict(a: set<string>, b: set<string>)
    requires a <= b && a != b
    ensures |a| < |b|
  {
    var x :| x in b && x !in a;
    SubsetCardinality(a, b - {x});
  }

  /** The wizard: the current step and the form values. */
  class SchoolRegistration {
    var currentStep: int
    var values: SchoolForm
    var errors: Errors

    /** The step is one of 1, 2, 3 and no committee is chosen twice. */
    ghost predicate Valid()
      reads this
    {
      1 <= currentStep <= 3 && NoDuplicates(values.committeePreferences)
    }

    constructor ()
      ensures Valid()
      ensures currentStep == 1 && values == DefaultForm && errors == map[]
    {
      currentStep := 1;
      values := DefaultForm;
      errors := map[];
    }

    /** `setCurrentStep(prev => Math.min(prev + 1, 3))`. */
    method NextStep()
      requires Valid()
      modifies this
      ensures Valid()
      ensures currentStep == if old(currentStep) < 3 then old(currentStep) + 1 else 3
      ensures values == old(values) && errors == old(errors)
    {
      currentStep := if currentStep + 1 < 3 then currentStep + 1 else 3;
    }

    /** `setCurrentStep(prev => Math.max(prev - 1, 1))`. */
    method PrevStep()
      requires Valid()
      modifies this
      ensures Valid()
      ensures currentStep == if old(currentStep) > 1 then old(currentStep) - 1 else 1
      ensures values == old(values) && errors == old(errors)
    {
      currentStep := if currentStep - 1 > 1 then currentStep - 1 else 1;
    }

    /** `toggleCommitteePreference`: drop the id if chosen, otherwise append it as the lowest preference. */
    method TogglePreference(id: string)
      requires Valid()
      modifies this
      ensures Valid()
      ensures values == old(values).(committeePreferences := Toggle(old(values).committeePreferences, id))
      ensures id in values.committeePreferences <==> id !in old(values).committeePreferences
      ensures currentStep == old(currentStep) && errors == old(errors)
    {
      ToggleNoDuplicates(values.committeePreferences, id);
      ToggleMembership(values.committeePreferences, id, id);
      values := values.(committeePreferences := Toggle(values.committeePreferences, id));
    }

    /** Typing into the inputs: every field but the preferences, which only the toggle changes. */
    method Edit(v: SchoolForm)
      requires Valid()
      modifies this
      ensures Valid()
      ensures values == v.(committeePreferences := old(values).committeePreferences)
      ensures currentStep == old(currentStep) && errors == old(errors)
    {
      values := v.(committeePreferences := values.committeePreferences);
    }

    /** `handleSubmit(onSubmit)`: the schema's errors are shown; a valid form is only logged. */
    method Submit(isEmail: string -> bool)
      requires Valid()
      modifies this
      ensures Valid()
      ensures errors == SchoolErrors(values, isEmail)
      ensures errors == map[] <==> Accepted(values, isEmail)
      ensures values == old(values) && currentStep == old(currentStep)
    {
      SchoolErrorsSpec(values, isEmail);
      errors := SchoolErrors(values, isEmail);
    }
  }

  /** From the default list, toggling keeps the list free of duplicates however often it is done. */
  lemma TogglesStayDistinct(ids: seq<string>)
    ensures NoDuplicates(ToggleAll([], ids))
  {
    ToggleAllDistinct([], ids);
  }

  /** The preference list after clicking the given committees in order. */
  function ToggleAll(prefs: seq<string>, ids: seq<string>): seq<string>
    decreases ids
  {
    if ids == [] then prefs else ToggleAll(Toggle(prefs, ids[0]), ids[1..])
  }

  lemma {:induction false} ToggleAllDistinct(prefs: seq<string>, ids: seq<string>)
    requires NoDuplicates(prefs)
    ensures NoDuplicates(ToggleAll(prefs, ids))
    decreases ids
  {
    if ids != [] {
      ToggleNoDuplicates(prefs, ids[0]);
      ToggleAllDistinct(Toggle(prefs, ids[0]), ids[1..]);
    }
  }
}
