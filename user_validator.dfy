/** The two request-body profiles, written as zod object schemas: create
    requires a string name, a string email that passes zod's email check,
    and allows a number age; update makes all three optional. zod's
    email regular expression is not modelled: it is the parameter
    `isEmail`. Parsing an object checks every schema key in order and
    collects one issue per failing key, so errors[0] names the first
    failing field; on success it returns the schema's keys only. */
module UserValidator {
  import opened Wrappers
  import opened JsValues
  import opened UserModel

  datatype FieldType = Str(checkEmail: bool) | Num

  datatype Field = Field(key: string, ty: FieldType, optional: bool)

  type Schema = seq<Field>

  /** z.object({ name: z.string(), email: z.string().email(), age: z.number().optional() }) */
  const CreateSchema: Schema :=
    [Field("name", Str(false), false), Field("email", Str(true), false), Field("age", Num, true)]

  /** The same three fields, each `.optional()`. */
  const UpdateSchema: Schema :=
    [Field("name", Str(false), true), Field("email", Str(true), true), Field("age", Num, true)]

  function Expected(ty: FieldType): string
  {
    match ty
    case Str(_) => "string"
    case Num => "number"
  }

  function HasType(ty: FieldType, v: Json): bool
  {
    match ty
    case Str(_) => v.JStr?
    case Num => v.JNum?
  }

  /** zod's issue for a value of the wrong type; its default message is
      "Required" when the value is undefined. */
  function TypeIssue(path: seq<string>, expected: string, received: string): Issue
  {
    Issue(path, "invalid_type", Some(expected), Some(received),
          Some(if received == "undefined" then "Required"
               else "Expected " + expected + ", received " + received))
  }

  /** zod's issue for a string that fails the email check. */
  function EmailIssue(key: string): Issue
  {
    Issue([key], "invalid_string", None, None, Some("Invalid email"))
  }

  /** The issue one schema field reports on a payload, if any. */
  function CheckField(f: Field, m: Payload, isEmail: string -> bool): Option<Issue>
  {
    if f.key !in m then
      if f.optional then None else Some(TypeIssue([f.key], Expected(f.ty), "undefined"))
    else if !HasType(f.ty, m[f.key]) then
      Some(TypeIssue([f.key], Expected(f.ty), TypeLabel(m[f.key])))
    else if f.ty.Str? && f.ty.checkEmail && !isEmail(m[f.key].s) then
      Some(EmailIssue(f.key))
    else
      None
  }

  /** The issues of all fields, in schema order. */
  function ShapeIssues(s: Schema, m: Payload, isEmail: string -> bool): seq<Issue>
    decreases |s|
  {
    if s == [] then []
    else
      (match CheckField(s[0], m, isEmail)
       case Some(issue) => [issue]
       case None => [])
      + ShapeIssues(s[1..], m, isEmail)
  }

  /** Every field of the schema is satisfied. */
  predicate Accepts(s: Schema, m: Payload, isEmail: string -> bool)
  {
    forall i :: 0 <= i < |s| ==> CheckField(s[i], m, isEmail).None?
  }

  function KeysOf(s: Schema): set<string>
  {
    set i | 0 <= i < |s| :: s[i].key
  }

  /** The parsed object: unknown keys are stripped, absent optional keys stay absent. */
  function Stripped(s: Schema, m: Payload): Payload
  {
    map k | k in m && k in KeysOf(s) :: m[k]
  }

  /** The ZodError that parse() throws. */
  function ZodError(issues: seq<Issue>): (r: ErrorObject)
    // no parse-failure type, so the middleware's ZodError branch is the
    // first to match, and it reads the issues in order
    ensures r.errorType.None? && r.name == Some("ZodError") && r.errors == Some(issues)
  {
    Bare.(name := Some("ZodError"), errors := Some(issues))
  }

  lemma {:induction false} ShapeIssuesEmpty(s: Schema, m: Payload, isEmail: string -> bool)
    ensures ShapeIssues(s, m, isEmail) == [] <==> Accepts(s, m, isEmail)
    decreases |s|
  {
    if s != [] {
      ShapeIssuesEmpty(s[1..], m, isEmail);
      assert forall i :: 0 <= i < |s| - 1 ==> s[1..][i] == s[i + 1];
      if Accepts(s[1..], m, isEmail) && CheckField(s[0], m, isEmail).None? {
        forall i | 0 <= i < |s| ensures CheckField(s[i], m, isEmail).None? {
          if i > 0 { assert s[i] == s[1..][i - 1]; }
        }
      }
    }
  }

  /** errors[0] is the issue of the first field, in schema order, that fails. */
  lemma {:induction false} FirstIssueIsFirstFailingField(s: Schema, m: Payload, isEmail: string -> bool, i: nat)
    requires i < |s| && CheckField(s[i], m, isEmail).Some?
    requires forall j :: 0 <= j < i ==> CheckField(s[j], m, isEmail).None?
    ensures |ShapeIssues(s, m, isEmail)| > 0
    ensures ShapeIssues(s, m, isEmail)[0] == CheckField(s[i], m, isEmail).value
    decreases i
  {
    if i > 0 {
      assert forall j :: 0 <= j < i - 1 ==> s[1..][j] == s[j + 1];
      FirstIssueIsFirstFailingField(s[1..], m, isEmail, i - 1);
    }
  }

  /** zod's object parse: Ok with the stripped payload, or a thrown ZodError. */
  function Parse(s: Schema, body: Json, isEmail: string -> bool): (r: Result<Payload, ErrorObject>)
    ensures r.Ok? <==> body.JObj? && Accepts(s, body.fields, isEmail)
    ensures r.Ok? ==> r.value.Keys == body.fields.Keys * KeysOf(s)
    ensures r.Ok? ==> forall k :: k in r.value ==> r.value[k] == body.fields[k]
    ensures r.Err? ==> r.error.errors.Some? && r.error == ZodError(r.error.errors.value) && FirstIssue(r.error).Some?
  {
    match body
    case JObj(m) =>
      var issues := ShapeIssues(s, m, isEmail);
      ShapeIssuesEmpty(s, m, isEmail);
      if issues == [] then Ok(Stripped(s, m)) else Err(ZodError(issues))
    case _ =>
      var received := TypeLabel(body);
      Err(ZodError([TypeIssue([], "object", received)]))
  }

  function ValidateCreateUserData(body: Json, isEmail: string -> bool): (r: Result<Payload, ErrorObject>)
    // unknown keys are stripped from the parsed value
    ensures r.Ok? ==> r.value.Keys <= {"name", "email", "age"}
    ensures r.Err? ==> r.error.name == Some("ZodError")
  {
    Parse(CreateSchema, body, isEmail)
  }

  function ValidateUpdateUserData(body: Json, isEmail: string -> bool): (r: Result<Payload, ErrorObject>)
    // unknown keys are stripped from the parsed value
    ensures r.Ok? ==> r.value.Keys <= {"name", "email", "age"}
    ensures r.Err? ==> r.error.name == Some("ZodError")
  {
    Parse(UpdateSchema, body, isEmail)
  }

  /** The create profile accepts exactly the objects of the `User` shape
      whose email passes the email check. */
  lemma CreateAcceptsExactly(m: Payload, isEmail: string -> bool)
    ensures ValidateCreateUserData(JObj(m), isEmail).Ok?
            <==> IsUserData(m) && isEmail(m["email"].s)
  {
    var s := CreateSchema;
    if IsUserData(m) && isEmail(m["email"].s) {
      forall i | 0 <= i < 3 ensures CheckField(s[i], m, isEmail).None? {}
    } else if !("name" in m && m["name"].JStr?) {
      assert CheckField(s[0], m, isEmail).Some?;
    } else if !("email" in m && m["email"].JStr?) || !isEmail(m["email"].s) {
      assert CheckField(s[1], m, isEmail).Some?;
    } else {
      assert CheckField(s[2], m, isEmail).Some?;
    }
  }

  /** The update profile accepts exactly the objects whose present fields
      have the right types and whose email, if present, passes the check. */
  lemma UpdateAcceptsExactly(m: Payload, isEmail: string -> bool)
    ensures ValidateUpdateUserData(JObj(m), isEmail).Ok?
            <==> IsUpdateData(m) && ("email" in m ==> isEmail(m["email"].s))
  {
    var s := UpdateSchema;
    if IsUpdateData(m) && ("email" in m ==> isEmail(m["email"].s)) {
      forall i | 0 <= i < 3 ensures CheckField(s[i], m, isEmail).None? {}
    } else if !("name" in m ==> m["name"].JStr?) {
      assert CheckField(s[0], m, isEmail).Some?;
    } else if !("email" in m ==> m["email"].JStr? && isEmail(m["email"].s)) {
      assert CheckField(s[1], m, isEmail).Some?;
    } else {
      assert CheckField(s[2], m, isEmail).Some?;
    }
  }

  /** Every payload the create profile accepts, the update profile accepts. */
  lemma CreateAcceptedIsUpdateAccepted(body: Json, isEmail: string -> bool)
    requires ValidateCreateUserData(body, isEmail).Ok?
    ensures ValidateUpdateUserData(body, isEmail).Ok?
  {
    CreateAcceptsExactly(body.fields, isEmail);
    UpdateAcceptsExactly(body.fields, isEmail);
  }

  /** Update profile: the empty object is accepted and parses to itself. */
  lemma UpdateAcceptsEmpty(isEmail: string -> bool)
    ensures ValidateUpdateUserData(JObj(map[]), isEmail) == Ok(map[])
  {
    UpdateAcceptsExactly(map[], isEmail);
  }

  /** Create profile: a missing or non-string name is the first issue,
      an invalid_type issue on path name. */
  lemma CreateRejectsBadName(m: Payload, isEmail: string -> bool)
    requires !("name" in m && m["name"].JStr?)
    ensures ValidateCreateUserData(JObj(m), isEmail).Err?
    ensures FirstIssue(ValidateCreateUserData(JObj(m), isEmail).error)
            == Some(TypeIssue(["name"], "string", ReceivedLabel(m, "name")))
  {
    FirstIssueIsFirstFailingField(CreateSchema, m, isEmail, 0);
  }

  /** Create profile: there is no non-empty rule, so an empty name is accepted. */
  lemma CreateAcceptsEmptyName(email: string, isEmail: string -> bool)
    requires isEmail(email)
    ensures ValidateCreateUserData(JObj(map["name" := JStr(""), "email" := JStr(email)]), isEmail)
            == Ok(map["name" := JStr(""), "email" := JStr(email)])
  {
    var m := map["name" := JStr(""), "email" := JStr(email)];
    CreateAcceptsExactly(m, isEmail);
    assert IsUserData(m) && isEmail(m["email"].s);
    var r := ValidateCreateUserData(JObj(m), isEmail);
    assert r.Ok?;
    assert m.Keys <= KeysOf(CreateSchema) by {
      assert "name" == CreateSchema[0].key && "email" == CreateSchema[1].key;
    }
    assert r.value.Keys == m.Keys;
    assert forall k :: k in m ==> r.value[k] == m[k];
    assert r.value == m;
  }

  /** Create profile, with a valid name: a non-string email is an
      invalid_type issue, a string failing the email check a rule issue. */
  lemma CreateEmailRules(m: Payload, isEmail: string -> bool)
    requires "name" in m && m["name"].JStr?
    requires !("email" in m && m["email"].JStr? && isEmail(m["email"].s))
    ensures ValidateCreateUserData(JObj(m), isEmail).Err?
    ensures var first := FirstIssue(ValidateCreateUserData(JObj(m), isEmail).error);
            if "email" in m && m["email"].JStr?
            then first == Some(EmailIssue("email")) && first.value.code != "invalid_type"
            else first == Some(TypeIssue(["email"], "string", ReceivedLabel(m, "email")))
  {
    assert CheckField(CreateSchema[0], m, isEmail).None?;
    FirstIssueIsFirstFailingField(CreateSchema, m, isEmail, 1);
  }

  /** Both profiles: an age that is present but not a number is rejected,
      and is the first issue when name and email are acceptable. */
  lemma AgeMustBeNumber(s: Schema, m: Payload, isEmail: string -> bool)
    requires s == CreateSchema || s == UpdateSchema
    requires "age" in m && !m["age"].JNum?
    ensures Parse(s, JObj(m), isEmail).Err?
    ensures CheckField(s[0], m, isEmail).None? && CheckField(s[1], m, isEmail).None? ==>
              FirstIssue(Parse(s, JObj(m), isEmail).error) == Some(TypeIssue(["age"], "number", TypeLabel(m["age"])))
  {
    assert CheckField(s[2], m, isEmail).Some?;
    if CheckField(s[0], m, isEmail).None? && CheckField(s[1], m, isEmail).None? {
      FirstIssueIsFirstFailingField(s, m, isEmail, 2);
    }
  }

  /** A success returns the input's own name, email and age. */
  lemma ParsedKeepsFields(s: Schema, body: Json, isEmail: string -> bool, k: string)
    requires s == CreateSchema || s == UpdateSchema
    requires Parse(s, body, isEmail).Ok?
    requires k == "name" || k == "email" || k == "age"
    ensures k in Parse(s, body, isEmail).value <==> k in body.fields
    ensures k in body.fields ==> Parse(s, body, isEmail).value[k] == body.fields[k]
  {
    assert k in KeysOf(s) by {
      if k == "name" { assert s[0].key == k; }
      else if k == "email" { assert s[1].key == k; }
      else { assert s[2].key == k; }
    }
  }
}
