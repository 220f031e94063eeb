/**
 * The intake schemas of lib/validations.ts: `clientSchema`, `intakeSchema` and their
 * combination `intakeFormSchema`. Each schema is a function from an input payload to either
 * the parsed value or the list of every issue found (zod reports all failing checks, not
 * only the first), beside a predicate that states the accepted payloads field by field.
 */
module Validations {
  import opened Wrappers

  datatype Field =
    | FirstName | LastName | Email | Company
    | ProjectName | ProjectType | Budget | Timeline | Description | Requirements | Priority

  datatype Issue = Issue(field: Field, message: string)

  datatype ClientInput = ClientInput(
    firstName: string, lastName: string, email: string,
    company: Option<string>, phone: Option<string>)

  /** The intake part as sent; `priority` may be absent. */
  datatype IntakeInput = IntakeInput(
    projectName: string, projectType: string, budget: int, timeline: string,
    description: string, requirements: seq<string>, priority: Option<string>)

  /** The intake part after parsing: the priority default has been applied. */
  datatype IntakeData = IntakeData(
    projectName: string, projectType: string, budget: int, timeline: string,
    description: string, requirements: seq<string>, priority: string)

  datatype FormInput = FormInput(client: ClientInput, intake: IntakeInput)

  datatype FormData = FormData(client: ClientInput, intake: IntakeData)

  const ProjectTypes: set<string> :=
    {"WEB_DEVELOPMENT", "MOBILE_APP", "DESIGN", "CONSULTING", "MARKETING", "OTHER"}

  const Priorities: set<string> := {"LOW", "MEDIUM", "HIGH", "URGENT"}

  const DefaultPriority: string := "MEDIUM"

  const InvalidEnum: string := "Invalid enum value"

  // ---------------------------------------------------------------------------------------
  // Email syntax

  predicate IsAsciiLetter(c: char) { 'a' <= c <= 'z' || 'A' <= c <= 'Z' }

  predicate IsAsciiAlnum(c: char) { IsAsciiLetter(c) || '0' <= c <= '9' }

  /** `[A-Z0-9_'+\-.]` under the case-insensitive flag. */
  predicate IsLocalChar(c: char) { IsAsciiAlnum(c) || c == '_' || c == '\'' || c == '+' || c == '-' || c == '.' }

  /**
   * The local part: `(?!\.)(?!.*\.\.)[A-Z0-9_'+\-.]*[A-Z0-9_+-]` — non-empty, no leading dot,
   * no two dots in a row, and a last character that is neither a dot nor a quote.
   */
  predicate IsLocalPart(s: string)
  {
    && |s| > 0
    && s[0] != '.'
    && (forall i :: 0 <= i < |s| ==> IsLocalChar(s[i]))
    && (forall i :: 0 <= i < |s| - 1 ==> !(s[i] == '.' && s[i + 1] == '.'))
    && s[|s| - 1] != '.' && s[|s| - 1] != '\''
  }

  /** One `[A-Z0-9][A-Z0-9\-]*` label of the domain. */
  predicate IsDomainLabel(s: string)
  {
    |s| > 0 && IsAsciiAlnum(s[0]) && forall i :: 0 <= i < |s| ==> IsAsciiAlnum(s[i]) || s[i] == '-'
  }

  /** `([A-Z0-9][A-Z0-9\-]*\.)+[A-Z]{2,}`: one or more labels, each followed by a dot, then a letter-only top-level label. */
  predicate IsDomain(s: string)
    decreases |s|
  {
    exists k :: 0 < k < |s| && s[k] == '.' && IsDomainLabel(s[..k]) && (IsTopLabel(s[k + 1..]) || IsDomain(s[k + 1..]))
  }

  predicate IsTopLabel(s: string)
  {
    |s| >= 2 && forall i :: 0 <= i < |s| ==> IsAsciiLetter(s[i])
  }

  /** The email pattern: a local part, one `@`, and a domain. */
  predicate IsEmail(s: string)
  {
    exists k :: 0 <= k < |s| && s[k] == '@' && IsLocalPart(s[..k]) && IsDomain(s[k + 1..])
  }

  // ---------------------------------------------------------------------------------------
  // Checks, one function per schema

  /** A string with `.min(lo, ...)` and `.max(hi, ...)`; the bounds are inclusive. */
  function LengthIssues(f: Field, s: string, lo: nat, hi: nat, tooShort: string, tooLong: string): (r: seq<Issue>)
    ensures r == [] <==> lo <= |s| <= hi
    ensures forall i :: i in r ==> i.field == f
  {
    (if |s| < lo then [Issue(f, tooShort)] else []) + (if |s| > hi then [Issue(f, tooLong)] else [])
  }

  /** The issues `clientSchema` reports about one field. */
  function ClientFieldIssues(c: ClientInput, f: Field): (r: seq<Issue>)
    ensures r == [] <==> FieldOkClient(c, f)
    ensures forall i :: i in r ==> i.field == f
  {
    match f
    case FirstName =>
      LengthIssues(FirstName, c.firstName, 2, 50,
        "First name must be at least 2 characters", "First name must be less than 50 characters")
    case LastName =>
      LengthIssues(LastName, c.lastName, 2, 50,
        "Last name must be at least 2 characters", "Last name must be less than 50 characters")
    case Email => if IsEmail(c.email) then [] else [Issue(Email, "Please enter a valid email address")]
    case Company =>
      (match c.company
       case None => []
       case Some(co) => if |co| > 100 then [Issue(Company, "Company name must be less than 100 characters")] else [])
    case _ => []
  }

  /** The issues `intakeSchema` reports about one field. */
  function IntakeFieldIssues(d: IntakeInput, f: Field): (r: seq<Issue>)
    ensures r == [] <==> FieldOkIntake(d, f)
    ensures forall i :: i in r ==> i.field == f
  {
    match f
    case ProjectName =>
      LengthIssues(ProjectName, d.projectName, 3, 100,
        "Project name must be at least 3 characters", "Project name must be less than 100 characters")
    case ProjectType => if d.projectType in ProjectTypes then [] else [Issue(ProjectType, InvalidEnum)]
    case Budget =>
      (if d.budget < 100 then [Issue(Budget, "Budget must be at least $100")] else [])
      + (if d.budget > 1000000 then [Issue(Budget, "Budget must be less than $1,000,000")] else [])
    case Timeline => if |d.timeline| < 1 then [Issue(Timeline, "Please specify a timeline")] else []
    case Description =>
      LengthIssues(Description, d.description, 10, 2000,
        "Description must be at least 10 characters", "Description must be less than 2000 characters")
    case Requirements =>
      (if |d.requirements| < 1 then [Issue(Requirements, "Please specify at least one requirement")] else [])
      + (if |d.requirements| > 20 then [Issue(Requirements, "Maximum 20 requirements allowed")] else [])
    case Priority =>
      (match d.priority
       case None => []
       case Some(p) => if p in Priorities then [] else [Issue(Priority, InvalidEnum)])
    case _ => []
  }

  /** The fields of each schema, in declaration order. */
  const ClientFields: seq<Field> := [FirstName, LastName, Email, Company]

  const IntakeFields: seq<Field> := [ProjectName, ProjectType, Budget, Timeline, Description, Requirements, Priority]

  /** The issues `clientSchema` reports about the fields fs, in that order. */
  function ClientIssuesOver(c: ClientInput, fs: seq<Field>): seq<Issue>
  {
    if fs == [] then [] else ClientFieldIssues(c, fs[0]) + ClientIssuesOver(c, fs[1..])
  }

  function IntakeIssuesOver(d: IntakeInput, fs: seq<Field>): seq<Issue>
  {
    if fs == [] then [] else IntakeFieldIssues(d, fs[0]) + IntakeIssuesOver(d, fs[1..])
  }

  /** The issues `clientSchema` reports, in field order. */
  function ClientIssues(c: ClientInput): seq<Issue>
  {
    ClientIssuesOver(c, ClientFields)
  }

  /** The issues `intakeSchema` reports, in field order. */
  function IntakeIssues(d: IntakeInput): seq<Issue>
  {
    IntakeIssuesOver(d, IntakeFields)
  }

  // ---------------------------------------------------------------------------------------
  // The accepted payloads, field by field

  predicate FieldOkClient(c: ClientInput, f: Field)
  {
    match f
    case FirstName => 2 <= |c.firstName| <= 50
    case LastName => 2 <= |c.lastName| <= 50
    case Email => IsEmail(c.email)
    case Company => c.company.None? || |c.company.value| <= 100
    case _ => true
  }

  predicate FieldOkIntake(d: IntakeInput, f: Field)
  {
    match f
    case ProjectName => 3 <= |d.projectName| <= 100
    case ProjectType => d.projectType in ProjectTypes
    case Budget => 100 <= d.budget <= 1000000
    case Timeline => |d.timeline| >= 1
    case Description => 10 <= |d.description| <= 2000
    case Requirements => 1 <= |d.requirements| <= 20
    case Priority => d.priority.None? || d.priority.value in Priorities
    case _ => true
  }

  predicate ClientValid(c: ClientInput)
  {
    forall f :: FieldOkClient(c, f)
  }

  predicate IntakeValid(d: IntakeInput)
  {
    forall f :: FieldOkIntake(d, f)
  }

  // ---------------------------------------------------------------------------------------
  // Parsing

  /** `clientSchema.safeParse`. */
  function ParseClient(c: ClientInput): (r: Result<ClientInput>)
    ensures r.Ok? <==> ClientValid(c)
    ensures r.Ok? ==> r.value == c
    ensures r.Err? ==> forall f :: !FieldOkClient(c, f) <==> exists i :: i in r.issues && i.field == f
  {
    ClientIssuesExact(c);
    var issues := ClientIssues(c);
    if issues == [] then Ok(c) else Err(issues)
  }

  /** `intakeSchema.safeParse`: on success the priority default is filled in. */
  function ParseIntake(d: IntakeInput): (r: Result<IntakeData>)
    ensures r.Ok? <==> IntakeValid(d)
    ensures r.Ok? ==> r.value.priority in Priorities
    ensures r.Ok? ==> r.value.priority == (if d.priority.Some? then d.priority.value else DefaultPriority)
    ensures r.Ok? ==> r.value == WithPriority(d, r.value.priority)
    ensures r.Err? ==> forall f :: !FieldOkIntake(d, f) <==> exists i :: i in r.issues && i.field == f
  {
    IntakeIssuesExact(d);
    var issues := IntakeIssues(d);
    if issues == [] then
      assert FieldOkIntake(d, Priority);
      Ok(WithPriority(d, match d.priority case None => DefaultPriority case Some(p) => p))
    else Err(issues)
  }

  function WithPriority(d: IntakeInput, p: string): IntakeData
  {
    IntakeData(d.projectName, d.projectType, d.budget, d.timeline, d.description, d.requirements, p)
  }

  /** `intakeFormSchema.safeParse`: the issues of both parts together. */
  function ParseForm(p: FormInput): (r: Result<FormData>)
    ensures r.Ok? <==> ClientValid(p.client) && IntakeValid(p.intake)
    ensures r.Ok? ==> r.value.client == p.client && ParseIntake(p.intake) == Ok(r.value.intake)
    ensures r.Err? ==> r.issues == ClientIssues(p.client) + IntakeIssues(p.intake)
  {
    ClientIssuesExact(p.client);
    IntakeIssuesExact(p.intake);
    var issues := ClientIssues(p.client) + IntakeIssues(p.intake);
    if issues == [] then
      Ok(FormData(p.client, WithPriority(p.intake, match p.intake.priority case None => DefaultPriority case Some(x) => x)))
    else Err(issues)
  }

  datatype Result<T> = Ok(value: T) | Err(issues: seq<Issue>)

  // ---------------------------------------------------------------------------------------
  // The reported issues are exactly the failing fields

  /** Among the fields fs, an issue names exactly the failing ones. */
  lemma {:induction false} ClientIssuesOverExact(c: ClientInput, fs: seq<Field>)
    ensures forall f :: (exists i :: i in ClientIssuesOver(c, fs) && i.field == f) <==> f in fs && !FieldOkClient(c, f)
  {
    if fs != [] {
      ClientIssuesOverExact(c, fs[1..]);
      var own := ClientFieldIssues(c, fs[0]);
      var rest := ClientIssuesOver(c, fs[1..]);
      forall f: Field ensures (exists i: Issue :: i in own + rest && i.field == f) <==> f in fs && !FieldOkClient(c, f) {
        assert f in fs <==> f == fs[0] || f in fs[1..];
        if f == fs[0] && own != [] {
          assert own[0] in own + rest;
        }
        if f in fs[1..] && !FieldOkClient(c, f) {
          var i :| i in rest && i.field == f;
          assert i in own + rest;
        }
      }
    }
  }

  lemma {:induction false} IntakeIssuesOverExact(d: IntakeInput, fs: seq<Field>)
    ensures forall f :: (exists i :: i in IntakeIssuesOver(d, fs) && i.field == f) <==> f in fs && !FieldOkIntake(d, f)
  {
    if fs != [] {
      IntakeIssuesOverExact(d, fs[1..]);
      var own := IntakeFieldIssues(d, fs[0]);
      var rest := IntakeIssuesOver(d, fs[1..]);
      forall f: Field ensures (exists i: Issue :: i in own + rest && i.field == f) <==> f in fs && !FieldOkIntake(d, f) {
        assert f in fs <==> f == fs[0] || f in fs[1..];
        if f == fs[0] && own != [] {
          assert own[0] in own + rest;
        }
        if f in fs[1..] && !FieldOkIntake(d, f) {
          var i :| i in rest && i.field == f;
          assert i in own + rest;
        }
      }
    }
  }

  /** Every issue names a failing field, and every failing field has an issue. */
  lemma ClientIssuesExact(c: ClientInput)
    ensures forall f :: !FieldOkClient(c, f) <==> exists i :: i in ClientIssues(c) && i.field == f
    ensures ClientIssues(c) == [] <==> ClientValid(c)
  {
    var r := ClientIssues(c);
    ClientIssuesOverExact(c, ClientFields);
    forall f ensures !FieldOkClient(c, f) <==> exists i :: i in r && i.field == f {
      if !FieldOkClient(c, f) {
        assert f in ClientFields;
      }
    }
    if r != [] {
      assert r[0] in r;
      assert !FieldOkClient(c, r[0].field);
    }
  }

  lemma IntakeIssuesExact(d: IntakeInput)
    ensures forall f :: !FieldOkIntake(d, f) <==> exists i :: i in IntakeIssues(d) && i.field == f
    ensures IntakeIssues(d) == [] <==> IntakeValid(d)
  {
    var r := IntakeIssues(d);
    IntakeIssuesOverExact(d, IntakeFields);
    forall f ensures !FieldOkIntake(d, f) <==> exists i :: i in r && i.field == f {
      if !FieldOkIntake(d, f) {
        assert f in IntakeFields;
      }
    }
    if r != [] {
      assert r[0] in r;
      assert !FieldOkIntake(d, r[0].field);
    }
  }

  /** Requirement entries are never inspected: any strings, blank ones included, pass. */
  lemma RequirementContentsIgnored(d: IntakeInput, reqs: seq<string>)
    requires |reqs| == |d.requirements|
    ensures IntakeValid(d) <==> IntakeValid(d.(requirements := reqs))
  {
    var d' := d.(requirements := reqs);
    assert forall f :: FieldOkIntake(d, f) <==> FieldOkIntake(d', f);
  }

  lemma EmailAccepted()
    ensures IsEmail("user@example.com")
  {
    var s := "user@example.com";
    var d := "example.com";
    assert s[4] == '@' && s[..4] == "user" && s[5..] == d;
    assert IsLocalPart("user");
    assert d[7] == '.' && d[..7] == "example" && d[8..] == "com";
    assert IsDomainLabel("example");
    assert IsTopLabel("com");
    assert IsDomain(d);
  }

  lemma EmailWithoutLocalPartRejected()
    ensures !IsEmail("@example.com")
  {
    var s := "@example.com";
    forall k | 0 <= k < |s| && s[k] == '@' ensures !IsLocalPart(s[..k]) {
      assert s[1..] == "example.com";
      assert '@' !in s[1..];
      assert k == 0;
    }
  }

  /** An address without a dot in it is rejected, so "user@example" is not an email. */
  lemma EmailNeedsDot(s: string)
    requires '.' !in s
    ensures !IsEmail(s)
    ensures !IsEmail("user@example")
  {
    forall k | 0 <= k < |s| && s[k] == '@' ensures !IsDomain(s[k + 1..]) {
      NoDotNoDomain(s[k + 1..]);
    }
    var t := "user@example";
    assert '.' !in t;
    forall k | 0 <= k < |t| && t[k] == '@' ensures !IsDomain(t[k + 1..]) {
      NoDotNoDomain(t[k + 1..]);
    }
  }

  /** A domain needs a dot. */
  lemma NoDotNoDomain(s: string)
    requires '.' !in s
    ensures !IsDomain(s)
  {
  }
}
