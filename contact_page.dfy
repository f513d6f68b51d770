/** The contact page of src/pages/Contact.tsx: a validated message form with nothing stored. */
module ContactPage {
  import opened Common
  import opened Forms

  datatype ContactForm = ContactForm(
    name: string,
    email: string,
    school: Option<string>,
    subject: string,
    message: string)

  /** What `reset()` puts back: the form as first rendered. */
  const EmptyForm := ContactForm("", "", None, "", "")

  function ContactChecks(f: ContactForm, isEmail: string -> bool): seq<Check> {
    [ Check("name", MinLength(f.name, 2), "Name is required"),
      Check("email", isEmail(f.email), "Valid email is required"),
      Check("subject", MinLength(f.subject, 5), "Subject is required"),
      Check("message", MinLength(f.message, 10), "Message must be at least 10 characters") ]
  }

  function ContactErrors(f: ContactForm, isEmail: string -> bool): Errors {
    ErrorsOf(ContactChecks(f, isEmail))
  }

  predicate Accepted(f: ContactForm, isEmail: string -> bool) {
    |f.name| >= 2 && isEmail(f.email) && |f.subject| >= 5 && |f.message| >= 10
  }

  /** Each rule of the schema; the school is optional. */
  lemma ContactErrorsSpec(f: ContactForm, isEmail: string -> bool)
    ensures var e := ContactErrors(f, isEmail);
      && ("name" in e <==> |f.name| < 2)
      && ("email" in e <==> !isEmail(f.email))
      && ("subject" in e <==> |f.subject| < 5)
      && ("message" in e <==> |f.message| < 10)
      && ("name" in e ==> e["name"] == "Name is required")
      && ("email" in e ==> e["email"] == "Valid email is required")
      && ("subject" in e ==> e["subject"] == "Subject is required")
      && ("message" in e ==> e["message"] == "Message must be at least 10 characters")
      && "school" !in e
      && (e == map[] <==> Accepted(f, isEmail))
  {
    var checks := ContactChecks(f, isEmail);
    ErrorsOfSpec(checks);
    assert checks[0].field == "name" && checks[1].field == "email";
    assert checks[2].field == "subject" && checks[3].field == "message";
    assert Fields(checks) == {"name", "email", "subject", "message"};
  }

  /** The page holds only its form values and errors; it has no store to write to. */
  class Contact {
    var values: ContactForm
    var errors: Errors

    constructor ()
      ensures values == EmptyForm && errors == map[]
    {
      values := EmptyForm;
      errors := map[];
    }

    /** Typing into the form. */
    method Edit(v: ContactForm)
      modifies this
      ensures values == v && errors == old(errors)
    {
      values := v;
    }

    /** `handleSubmit(onSubmit)`: a valid message resets the form; an invalid one keeps it and shows the errors. */
    method Submit(isEmail: string -> bool)
      modifies this
      ensures errors == ContactErrors(old(values), isEmail)
      ensures Accepted(old(values), isEmail) ==> values == EmptyForm && errors == map[]
      ensures !Accepted(old(values), isEmail) ==> values == old(values) && errors != map[]
    {
      ContactErrorsSpec(values, isEmail);
      errors := ContactErrors(values, isEmail);
      if Accepted(values, isEmail) {
        values := EmptyForm;
      }
    }
  }
}
