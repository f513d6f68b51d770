/** The records shared by the auth store and the pages (src/types/index.ts). */
module Types {
  import opened Common

  datatype Role = Student | Teacher | Admin

  /** The string a role is written as in records and in the session cookie. */
  function RoleName(r: Role): string {
    match r
    case Student => "student"
    case Teacher => "teacher"
    case Admin => "admin"
  }

  /** A signed-up account. It has no password field: the password is never stored. */
  datatype User = User(
    id: string,
    email: string,
    fullName: string,
    schoolName: string,
    grade: Option<string>,
    role: Role,
    createdAt: string)

  /** The data of the individual registration form (src/pages/Register.tsx). */
  datatype RegistrationForm = RegistrationForm(
    fullName: string,
    email: string,
    schoolName: string,
    grade: Option<string>,
    role: string,
    phone: string,
    emergencyContact: string,
    emergencyPhone: string,
    dietaryRestrictions: Option<string>,
    specialNeeds: Option<string>,
    agreedToTerms: bool)

  /** A stored registration: the submitted form spread into a record with an id, a date and a status. */
  datatype Registration = Registration(
    form: RegistrationForm,
    id: string,
    registrationDate: string,
    status: string)
}
