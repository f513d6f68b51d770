/** The individual registration page of src/pages/Register.tsx. */
module RegisterPage {
  import opened Common
  import opened Types
  import opened Forms
  import Auth

  /** The field rules of `registrationSchema`; grade, dietary restrictions and special needs are optional. */
  function RegisterChecks(f: RegistrationForm, isEmail: string -> bool): seq<Check> {
    [ Check("fullName", MinLength(f.fullName, 2), "Full name is required"),
      Check("email", isEmail(f.email), "Valid email is required"),
      Check("schoolName", MinLength(f.schoolName, 2), "School name is required"),
      RoleCheck(f.role),
      Check("phone", MinLength(f.phone, 10), "Valid phone number is required"),
      Check("emergencyContact", MinLength(f.emergencyContact, 2), "Emergency contact is required"),
      Check("emergencyPhone", MinLength(f.emergencyPhone, 10), "Emergency contact phone is required"),
      Check("agreedToTerms", f.agreedToTerms, "You must agree to the terms and conditions") ]
  }

  function RegisterErrors(f: RegistrationForm, isEmail: string -> bool): Errors {
    ErrorsOf(RegisterChecks(f, isEmail))
  }

  predicate Accepted(f: RegistrationForm, isEmail: string -> bool) {
    && |f.fullName| >= 2 && isEmail(f.email) && |f.schoolName| >= 2 && IsFormRole(f.role)
    && |f.phone| >= 10 && |f.emergencyContact| >= 2 && |f.emergencyPhone| >= 10
    && f.agreedToTerms
  }

  /** The eight rules guard eight different fields. */
  lemma RegisterFieldsDistinct(f: RegistrationForm, isEmail: string -> bool)
    ensures DistinctFields(RegisterChecks(f, isEmail))
  {
    var checks := RegisterChecks(f, isEmail);
    forall i, j | 0 <= i < j < |checks| ensures checks[i].field != checks[j].field {
      if i == 1 && j == 4 {
        assert checks[i].field[0] != checks[j].field[0];
      } else {
        assert |checks[i].field| != |checks[j].field|;
      }
    }
  }

  /** The rules for the applicant's own details. */
  lemma ApplicantErrors(f: RegistrationForm, isEmail: string -> bool)
    ensures var e := RegisterErrors(f, isEmail);
      && ("fullName" in e <==> |f.fullName| < 2)
      && ("email" in e <==> !isEmail(f.email))
      && ("schoolName" in e <==> |f.schoolName| < 2)
      && ("role" in e <==> !IsFormRole(f.role))
      && ("fullName" in e ==> e["fullName"] == "Full name is required")
      && ("email" in e ==> e["email"] == "Valid email is required")
      && ("schoolName" in e ==> e["schoolName"] == "School name is required")
      && ("role" in e ==> e["role"] == EnumMessage(f.role))
  {
    var checks := RegisterChecks(f, isEmail);
    RegisterFieldsDistinct(f, isEmail);
    ErrorOfCheck(checks, 0);
    ErrorOfCheck(checks, 1);
    ErrorOfCheck(checks, 2);
    ErrorOfCheck(checks, 3);
  }

  /** The rules for the contact details and the terms. */
  lemma ContactDetailErrors(f: RegistrationForm, isEmail: string -> bool)
    ensures var e := RegisterErrors(f, isEmail);
      && ("phone" in e <==> |f.phone| < 10)
      && ("emergencyContact" in e <==> |f.emergencyContact| < 2)
      && ("emergencyPhone" in e <==> |f.emergencyPhone| < 10)
      && ("agreedToTerms" in e <==> !f.agreedToTerms)
      && ("phone" in e ==> e["phone"] == "Valid phone number is required")
      && ("emergencyContact" in e ==> e["emergencyContact"] == "Emergency contact is required")
      && ("emergencyPhone" in e ==> e["emergencyPhone"] == "Emergency contact phone is required")
      && ("agreedToTerms" in e ==> e["agreedToTerms"] == "You must agree to the terms and conditions")
  {
    var checks := RegisterChecks(f, isEmail);
    RegisterFieldsDistinct(f, isEmail);
    ErrorOfCheck(checks, 4);
    ErrorOfCheck(checks, 5);
    ErrorOfCheck(checks, 6);
    ErrorOfCheck(checks, 7);
  }

  /** Only the eight guarded fields can carry an error. */
  lemma RegisterOptionalFields(f: RegistrationForm, isEmail: string -> bool)
    ensures var e := RegisterErrors(f, isEmail);
      "grade" !in e && "dietaryRestrictions" !in e && "specialNeeds" !in e
  {
    var checks := RegisterChecks(f, isEmail);
    RegisterFieldsDistinct(f, isEmail);
    NoErrorsOf(checks);
    forall k | 0 <= k < |checks|
      ensures checks[k].field != "grade" && checks[k].field != "dietaryRestrictions"
        && checks[k].field != "specialNeeds"
    {
      if k == 1 || k == 4 {
        assert checks[k].field[0] != "grade"[0];
      } else {
        assert |checks[k].field| != |"grade"|;
      }
      assert |checks[k].field| != |"dietaryRestrictions"| && |checks[k].field| != |"specialNeeds"|;
    }
  }

  /** The form passes exactly when it meets every rule. */
  lemma RegisterAccepted(f: RegistrationForm, isEmail: string -> bool)
    ensures RegisterErrors(f, isEmail) == map[] <==> Accepted(f, isEmail)
  {
    var checks := RegisterChecks(f, isEmail);
    RegisterFieldsDistinct(f, isEmail);
    NoErrorsOf(checks);
    if Accepted(f, isEmail) {
      forall k | 0 <= k < |checks| ensures checks[k].ok { }
    } else {
      assert !checks[0].ok || !checks[1].ok || !checks[2].ok || !checks[3].ok
        || !checks[4].ok || !checks[5].ok || !checks[6].ok || !checks[7].ok;
    }
  }

  /** The optional fields never cause an error, and the form passes exactly when it meets every rule. */
  lemma RegisterErrorsSpec(f: RegistrationForm, isEmail: string -> bool)
    ensures var e := RegisterErrors(f, isEmail);
      && "grade" !in e && "dietaryRestrictions" !in e && "specialNeeds" !in e
      && (e == map[] <==> Accepted(f, isEmail))
  {
    RegisterOptionalFields(f, isEmail);
    RegisterAccepted(f, isEmail);
  }

  /** The page: the resolver's errors and the two submission flags. */
  class Register {
    const store: Auth.AuthStore
    var errors: Errors
    var isSubmitting: bool
    var isSubmitted: bool

    constructor (store: Auth.AuthStore)
      ensures this.store == store
      ensures errors == map[] && !isSubmitting && !isSubmitted
    {
      this.store := store;
      errors := map[];
      isSubmitting := false;
      isSubmitted := false;
    }

    /**
     * `handleSubmit(onSubmit)`: a valid form is appended to the store as one
     * pending registration, the page shows its confirmation, and the
     * submitting flag is down again; an invalid form only shows its errors.
     */
    method Submit(f: RegistrationForm, isEmail: string -> bool, id: string, date: string)
      requires store.Valid()
      modifies this, store
      ensures store.Valid()
      ensures errors == RegisterErrors(f, isEmail)
      ensures errors == map[] <==> Accepted(f, isEmail)
      ensures !isSubmitting || (!Accepted(f, isEmail) && old(isSubmitting))
      ensures !Accepted(f, isEmail) ==>
        isSubmitting == old(isSubmitting) && isSubmitted == old(isSubmitted) && unchanged(store)
      ensures Accepted(f, isEmail) ==>
        && isSubmitted
        && store.registrations == old(store.registrations) + [Auth.NewRegistration(f, id, date)]
        && store.registrations[|store.registrations| - 1].status == Auth.Pending
        && store.users == old(store.users) && store.cookies == old(store.cookies)
    {
      RegisterErrorsSpec(f, isEmail);
      errors := RegisterErrors(f, isEmail);
      if !Accepted(f, isEmail) {
        return;
      }
      isSubmitting := true;
      store.AddRegistration(f, id, date);
      isSubmitted := true;
      isSubmitting := false;
    }
  }
}
