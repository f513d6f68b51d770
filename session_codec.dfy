/**
 * The text kept in the `user_data` cookie: `JSON.stringify(user)` of a User
 * record and its reading back with `JSON.parse`. Members appear in the
 * record's declaration order; an absent grade is omitted, as JSON.stringify
 * omits an `undefined` member. Inside string values the quote and the
 * backslash are escaped with a backslash.
 */
module SessionCodec {
  import opened Common
  import opened Types
  import opened Text

  /** The body of a JSON string literal for `s`, without the surrounding quotes. */
  function Escape(s: string): string {
    if s == "" then ""
    else (if s[0] == '"' || s[0] == '\\' then ['\\', s[0]] else [s[0]]) + Escape(s[1..])
  }

  /** `key` (which ends with the colon), the quoted value, then whatever follows. */
  function Member(key: string, value: string, rest: string): string {
    key + "\"" + Escape(value) + "\"" + rest
  }

  const IdKey := "{\"id\":"
  const EmailKey := ",\"email\":"
  const FullNameKey := ",\"fullName\":"
  const SchoolNameKey := ",\"schoolName\":"
  const GradeKey := ",\"grade\":"
  const RoleKey := ",\"role\":"
  const CreatedAtKey := ",\"createdAt\":"

  function GradeText(grade: Option<string>, rest: string): string {
    match grade
    case None => rest
    case Some(g) => Member(GradeKey, g, rest)
  }

  /** `JSON.stringify(user)`. */
  function Encode(u: User): string {
    Member(IdKey, u.id,
      Member(EmailKey, u.email,
        Member(FullNameKey, u.fullName,
          Member(SchoolNameKey, u.schoolName,
            EncodeTail(u.grade, u.role, u.createdAt)))))
  }

  /** Reads the body of a string literal up to its closing quote: the value and the text after the quote. */
  function Unescape(s: string): Option<(string, string)>
    decreases |s|
  {
    if s == "" then None
    else if s[0] == '"' then Some(("", s[1..]))
    else if s[0] == '\\' then
      if |s| >= 2 && (s[1] == '"' || s[1] == '\\') then
        var p :- Unescape(s[2..]);
        Some(([s[1]] + p.0, p.1))
      else None
    else
      var p :- Unescape(s[1..]);
      Some(([s[0]] + p.0, p.1))
  }

  /** Reads `key` followed by a string literal. */
  function ReadMember(key: string, s: string): Option<(string, string)> {
    if StartsWith(s, key + "\"") then Unescape(s[|key| + 1..]) else None
  }

  /** Reads the grade member when it is there. */
  function ReadGrade(s: string): Option<(Option<string>, string)> {
    if StartsWith(s, GradeKey) then
      var p :- ReadMember(GradeKey, s);
      Some((Some(p.0), p.1))
    else Some((None, s))
  }

  function ParseRole(s: string): Option<Role> {
    if s == "student" then Some(Student)
    else if s == "teacher" then Some(Teacher)
    else if s == "admin" then Some(Admin)
    else None
  }

  /** Reads the members after the school name: the grade when present, the role, the creation time and the closing brace. */
  function DecodeTail(s: string): Option<(Option<string>, Role, string)> {
    var grade :- ReadGrade(s);
    var role :- ReadMember(RoleKey, grade.1);
    var roleValue :- ParseRole(role.0);
    var created :- ReadMember(CreatedAtKey, role.1);
    if created.1 == "}" then Some((grade.0, roleValue, created.0)) else None
  }

  /** `JSON.parse` of a stored user record; `None` for text that is not one. */
  function Decode(s: string): Option<User> {
    var id :- ReadMember(IdKey, s);
    var email :- ReadMember(EmailKey, id.1);
    var fullName :- ReadMember(FullNameKey, email.1);
    var school :- ReadMember(SchoolNameKey, fullName.1);
    var tail :- DecodeTail(school.1);
    Some(User(id.0, email.0, fullName.0, school.0, tail.0, tail.1, tail.2))
  }

  lemma {:induction false} UnescapeEscape(v: string, rest: string)
    ensures Unescape(Escape(v) + "\"" + rest) == Some((v, rest))
  {
    if v == "" {
      assert Escape(v) + "\"" + rest == "\"" + rest;
    } else {
      var head := if v[0] == '"' || v[0] == '\\' then ['\\', v[0]] else [v[0]];
      var tail := Escape(v[1..]) + "\"" + rest;
      assert Escape(v) + "\"" + rest == head + tail;
      UnescapeEscape(v[1..], rest);
      if |head| == 2 {
        assert (head + tail)[2..] == tail;
      } else {
        assert (head + tail)[1..] == tail;
      }
      assert [v[0]] + v[1..] == v;
    }
  }

  /** Only what `Escape` writes is read back: the reading is the inverse of the writing. */
  lemma {:induction false} EscapeUnescape(s: string, v: string, rest: string)
    requires Unescape(s) == Some((v, rest))
    ensures s == Escape(v) + "\"" + rest
    decreases |s|
  {
    if s[0] == '"' {
      assert v == "" && rest == s[1..];
    } else if s[0] == '\\' {
      var p := Unescape(s[2..]).value;
      EscapeUnescape(s[2..], p.0, p.1);
      assert v == [s[1]] + p.0;
      assert v[1..] == p.0;
      assert s == [s[0], s[1]] + s[2..];
    } else {
      var p := Unescape(s[1..]).value;
      EscapeUnescape(s[1..], p.0, p.1);
      assert v == [s[0]] + p.0;
      assert v[1..] == p.0;
      assert s == [s[0]] + s[1..];
    }
  }

  lemma ReadMemberOfMember(key: string, v: string, rest: string)
    ensures ReadMember(key, Member(key, v, rest)) == Some((v, rest))
  {
    var m := Member(key, v, rest);
    assert m == (key + "\"") + (Escape(v) + "\"" + rest);
    assert m[..|key| + 1] == key + "\"";
    assert m[|key| + 1..] == Escape(v) + "\"" + rest;
    UnescapeEscape(v, rest);
  }

  lemma ReadMemberInverse(key: string, s: string, v: string, rest: string)
    requires ReadMember(key, s) == Some((v, rest))
    ensures s == Member(key, v, rest)
  {
    EscapeUnescape(s[|key| + 1..], v, rest);
    assert s == s[..|key| + 1] + s[|key| + 1..];
  }

  lemma ReadGradeOfGradeText(grade: Option<string>, v: string, rest: string)
    ensures ReadGrade(GradeText(grade, Member(RoleKey, v, rest))) == Some((grade, Member(RoleKey, v, rest)))
  {
    var tail := Member(RoleKey, v, rest);
    match grade
    case None =>
      assert tail[2] == 'r' && GradeKey[2] == 'g';
      assert !StartsWith(tail, GradeKey);
    case Some(g) =>
      var m := Member(GradeKey, g, tail);
      assert m[..|GradeKey|] == GradeKey;
      ReadMemberOfMember(GradeKey, g, tail);
  }

  lemma ParseRoleName(r: Role)
    ensures ParseRole(RoleName(r)) == Some(r)
  {
  }

  /** The text after the school name, as `Encode` writes it. */
  function EncodeTail(grade: Option<string>, role: Role, createdAt: string): string {
    GradeText(grade, Member(RoleKey, RoleName(role), Member(CreatedAtKey, createdAt, "}")))
  }

  lemma DecodeTailOfEncodeTail(grade: Option<string>, role: Role, createdAt: string)
    ensures DecodeTail(EncodeTail(grade, role, createdAt)) == Some((grade, role, createdAt))
  {
    var created := Member(CreatedAtKey, createdAt, "}");
    ReadGradeOfGradeText(grade, RoleName(role), created);
    ReadMemberOfMember(RoleKey, RoleName(role), created);
    ParseRoleName(role);
    ReadMemberOfMember(CreatedAtKey, createdAt, "}");
  }

  lemma EncodeTailOfDecodeTail(s: string, grade: Option<string>, role: Role, createdAt: string)
    requires DecodeTail(s) == Some((grade, role, createdAt))
    ensures EncodeTail(grade, role, createdAt) == s
  {
    var g := ReadGrade(s).value;
    if StartsWith(s, GradeKey) {
      var m := ReadMember(GradeKey, s).value;
      ReadMemberInverse(GradeKey, s, m.0, m.1);
    }
    assert s == GradeText(g.0, g.1);
    var r := ReadMember(RoleKey, g.1).value;
    ReadMemberInverse(RoleKey, g.1, r.0, r.1);
    assert r.0 == RoleName(role);
    var c := ReadMember(CreatedAtKey, r.1).value;
    ReadMemberInverse(CreatedAtKey, r.1, c.0, c.1);
  }

  /** Reading the stored text back gives the very user that was stored. */
  lemma DecodeEncode(u: User)
    ensures Decode(Encode(u)) == Some(u)
  {
    var tail := EncodeTail(u.grade, u.role, u.createdAt);
    var school := Member(SchoolNameKey, u.schoolName, tail);
    var fullName := Member(FullNameKey, u.fullName, school);
    var email := Member(EmailKey, u.email, fullName);
    ReadMemberOfMember(IdKey, u.id, email);
    ReadMemberOfMember(EmailKey, u.email, fullName);
    ReadMemberOfMember(FullNameKey, u.fullName, school);
    ReadMemberOfMember(SchoolNameKey, u.schoolName, tail);
    DecodeTailOfEncodeTail(u.grade, u.role, u.createdAt);
  }

  /** Every text that reads as a user is that user's encoding. */
  lemma EncodeDecode(s: string, u: User)
    requires Decode(s) == Some(u)
    ensures Encode(u) == s
  {
    var id := ReadMember(IdKey, s).value;
    ReadMemberInverse(IdKey, s, id.0, id.1);
    var email := ReadMember(EmailKey, id.1).value;
    ReadMemberInverse(EmailKey, id.1, email.0, email.1);
    var fullName := ReadMember(FullNameKey, email.1).value;
    ReadMemberInverse(FullNameKey, email.1, fullName.0, fullName.1);
    var school := ReadMember(SchoolNameKey, fullName.1).value;
    ReadMemberInverse(SchoolNameKey, fullName.1, school.0, school.1);
    EncodeTailOfDecodeTail(school.1, u.grade, u.role, u.createdAt);
  }
}
