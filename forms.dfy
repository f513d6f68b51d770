/**
 * The part of zod with react-hook-form that the form pages use: each schema
 * is a list of field checks, and the form's `errors` object maps every field
 * whose check fails to that check's message.
 */
module Forms {
  import opened Types

  /** One rule of a schema: the field it guards, whether the value passes, and the message shown when it does not. */
  datatype Check = Check(field: string, ok: bool, message: string)

  /** Field name to error message, as in `formState.errors`. */
  type Errors = map<string, string>

  /** No two checks guard the same field. */
  predicate DistinctFields(checks: seq<Check>) {
    forall i, j :: 0 <= i < j < |checks| ==> checks[i].field != checks[j].field
  }

  /** The fields the checks guard. */
  function Fields(checks: seq<Check>): set<string> {
    set k | 0 <= k < |checks| :: checks[k].field
  }

  /** The errors of a list of checks: every failing field with its message. */
  function ErrorsOf(checks: seq<Check>): Errors {
    if checks == [] then map[]
    else
      var rest := ErrorsOf(checks[1..]);
      if checks[0].ok then rest else rest[checks[0].field := checks[0].message]
  }

  /** With distinct fields, a field has an error exactly when its check fails, and the error is that check's message. */
  lemma {:induction false} ErrorsOfSpec(checks: seq<Check>)
    requires DistinctFields(checks)
    ensures forall k :: 0 <= k < |checks| ==> (checks[k].field in ErrorsOf(checks) <==> !checks[k].ok)
    ensures forall k :: 0 <= k < |checks| && !checks[k].ok ==> ErrorsOf(checks)[checks[k].field] == checks[k].message
    ensures ErrorsOf(checks) == map[] <==> forall k :: 0 <= k < |checks| ==> checks[k].ok
    ensures ErrorsOf(checks).Keys <= Fields(checks)
  {
    if checks != [] {
      var tail := checks[1..];
      assert DistinctFields(tail) by {
        forall i, j | 0 <= i < j < |tail| ensures tail[i].field != tail[j].field {
          assert tail[i] == checks[i + 1] && tail[j] == checks[j + 1];
        }
      }
      ErrorsOfSpec(tail);
      forall k | 0 < k < |checks|
        ensures checks[k].field in ErrorsOf(checks) <==> !checks[k].ok
        ensures !checks[k].ok ==> ErrorsOf(checks)[checks[k].field] == checks[k].message
      {
        assert checks[k] == tail[k - 1];
      }
      if !checks[0].ok {
        assert checks[0].field in ErrorsOf(checks);
      } else if ErrorsOf(checks) == map[] {
        forall k | 0 <= k < |checks| ensures checks[k].ok {
          if k > 0 {
            assert checks[k] == tail[k - 1];
          }
        }
      }
    }
  }

  /** One check of a list with distinct fields: its field has an error exactly when it fails, and the error is its message. */
  lemma ErrorOfCheck(checks: seq<Check>, k: nat)
    requires DistinctFields(checks) && k < |checks|
    ensures checks[k].field in ErrorsOf(checks) <==> !checks[k].ok
    ensures !checks[k].ok ==> ErrorsOf(checks)[checks[k].field] == checks[k].message
  {
    ErrorsOfSpec(checks);
  }

  /** A list of checks yields no error exactly when every check passes, and only guarded fields get errors. */
  lemma NoErrorsOf(checks: seq<Check>)
    requires DistinctFields(checks)
    ensures ErrorsOf(checks) == map[] <==> forall k :: 0 <= k < |checks| ==> checks[k].ok
    ensures ErrorsOf(checks).Keys <= Fields(checks)
  {
    ErrorsOfSpec(checks);
  }

  /** `z.string().min(n)` reads as a length bound on the sequence of characters. */
  predicate MinLength(s: string, n: nat) {
    |s| >= n
  }

  /** The roles a form may choose, as `z.enum(['student', 'teacher'])`. */
  predicate IsFormRole(s: string) {
    s == "student" || s == "teacher"
  }

  /** zod's own message for a value outside the enum (`required_error` only covers a missing value). */
  function EnumMessage(received: string): string {
    "Invalid enum value. Expected 'student' | 'teacher', received '" + received + "'"
  }

  /** The role check of a form whose role select always submits a string, '' until a role is picked. */
  function RoleCheck(role: string): (c: Check)
    ensures c.field == "role" && c.message == EnumMessage(role)
    ensures c.ok <==> IsFormRole(role)
  {
    Check("role", IsFormRole(role), EnumMessage(role))
  }

  /** The role a validated form names. */
  function FormRole(role: string): (r: Role)
    requires IsFormRole(role)
    ensures RoleName(r) == role && r != Admin
  {
    if role == "student" then Student else Teacher
  }

  /** `error || fallback`: the error text unless it is empty. */
  function OrElse(error: string, fallback: string): (r: string)
    ensures error != "" ==> r == error
    ensures error == "" ==> r == fallback
  {
    if error != "" then error else fallback
  }

}
