/**
 * The intake form's requirement list (components/intake-form.tsx): the rows the user edits
 * (`requirements`), the form value the schema sees (`intake.requirements`), and what the form
 * passes on when it is submitted: the values the resolver accepted, with blank requirements
 * dropped.
 *
 * That order, validate then drop blanks, lets the initial single empty row through the schema
 * (`min(1)` counts it) and then submits no requirement at all: `SubmitAsWritten` models it and
 * `DefaultRowSubmitsNothing` shows it. `SubmitChecked` drops blanks before validating, and
 * everything it submits meets the schema.
 */
module IntakeForm {
  import opened Wrappers
  import opened Validations
  import Text

  /** `reqs.filter((req) => req.trim() !== "")`. */
  function NonBlank(reqs: seq<string>): (r: seq<string>)
    ensures |r| <= |reqs|
    ensures forall x :: x in r <==> x in reqs && !Text.IsBlank(x)
    ensures forall i :: 0 <= i < |r| ==> !Text.IsBlank(r[i])
  {
    if reqs == [] then []
    else if Text.IsBlank(reqs[0]) then NonBlank(reqs[1..])
    else [reqs[0]] + NonBlank(reqs[1..])
  }

  /** Filtering keeps the order: it distributes over concatenation. */
  lemma {:induction false} NonBlankAppend(a: seq<string>, b: seq<string>)
    ensures NonBlank(a + b) == NonBlank(a) + NonBlank(b)
  {
    if a == [] {
      assert a + b == b;
    } else {
      assert (a + b)[1..] == a[1..] + b;
      NonBlankAppend(a[1..], b);
    }
  }

  /** A list with no blank entry is passed through unchanged. */
  lemma {:induction false} NonBlankKeepsFilled(reqs: seq<string>)
    requires forall i :: 0 <= i < |reqs| ==> !Text.IsBlank(reqs[i])
    ensures NonBlank(reqs) == reqs
  {
    if reqs != [] {
      NonBlankKeepsFilled(reqs[1..]);
    }
  }

  /** Filtering twice is filtering once. */
  lemma NonBlankIdempotent(reqs: seq<string>)
    ensures NonBlank(NonBlank(reqs)) == NonBlank(reqs)
  {
    var r := NonBlank(reqs);
    forall i | 0 <= i < |r| ensures !Text.IsBlank(r[i]) {
      assert r[i] in r;
    }
    NonBlankKeepsFilled(r);
  }

  /**
   * The entries of `rest`, which starts at position `pos` of the whole list, whose position is
   * not `index`.
   */
  function KeepOtherPositions(rest: seq<string>, index: nat, pos: nat): (r: seq<string>)
    ensures pos <= index < pos + |rest| ==> r == rest[..index - pos] + rest[index - pos + 1..]
    ensures !(pos <= index < pos + |rest|) ==> r == rest
  {
    if rest == [] then []
    else
      var tail := KeepOtherPositions(rest[1..], index, pos + 1);
      if pos == index then
        assert rest[..0] + rest[1..] == rest[1..];
        tail
      else
        if pos < index < pos + |rest| then
          assert rest[1..][..index - pos - 1] == rest[1..index - pos];
          assert [rest[0]] + rest[1..index - pos] == rest[..index - pos];
          assert rest[1..][index - pos..] == rest[index - pos + 1..];
          [rest[0]] + tail
        else
          assert [rest[0]] + rest[1..] == rest;
          [rest[0]] + tail
  }

  /**
   * `requirements.filter((_, i) => i !== index)`: exactly entry `index` goes, the entries before
   * it stay where they are and the ones after it move down by one.
   */
  function WithoutIndex(reqs: seq<string>, index: nat): (r: seq<string>)
    ensures index < |reqs| ==> r == reqs[..index] + reqs[index + 1..]
    ensures index < |reqs| ==>
      && |r| == |reqs| - 1
      && (forall j :: 0 <= j < index ==> r[j] == reqs[j])
      && (forall j :: index <= j < |r| ==> r[j] == reqs[j + 1])
    ensures index >= |reqs| ==> r == reqs
  {
    KeepOtherPositions(reqs, index, 0)
  }

  /** The form value the requirement rows stand for. */
  function FormValue(rows: seq<string>): seq<string>
  {
    NonBlank(rows)
  }

  class RequirementList {
    /** The rows on screen. */
    var requirements: seq<string>
    /** The form's `intake.requirements` value. */
    var formRequirements: seq<string>

    /** The form value is the rows with the blank ones dropped. */
    predicate Synced()
      reads this
    {
      formRequirements == FormValue(requirements)
    }

    /** `useState([""])` and the default `requirements: [""]`: one empty row, not yet synced. */
    constructor ()
      ensures requirements == [""] && formRequirements == [""]
      ensures !Synced()
    {
      requirements := [""];
      formRequirements := [""];
      assert Text.IsBlank("");
    }

    /** Whether row `index`'s remove button is shown: only while there is more than one row. */
    function CanRemove(): (r: bool)
      reads this
      ensures r <==> |requirements| > 1
    {
      |requirements| > 1
    }

    /** `handleRequirementChange`: row `index` gets `value`, then the form value is re-derived. */
    method HandleRequirementChange(index: nat, value: string)
      requires index < |requirements|
      modifies this`requirements, this`formRequirements
      ensures |requirements| == |old(requirements)|
      ensures requirements[index] == value
      ensures forall i :: 0 <= i < |requirements| && i != index ==> requirements[i] == old(requirements)[i]
      ensures Synced()
    {
      var current := requirements;
      var copy := new string[|current|](i requires 0 <= i < |current| => current[i]);
      copy[index] := value;
      requirements := copy[..];
      formRequirements := NonBlank(requirements);
    }

    /** `addRequirement`: one more empty row; the form value is left as it was. */
    method AddRequirement()
      modifies this`requirements
      ensures requirements == old(requirements) + [""]
      ensures old(Synced()) ==> Synced()
    {
      requirements := requirements + [""];
      assert Text.IsBlank("");
      NonBlankAppend(old(requirements), [""]);
    }

    /** `removeRequirement`: row `index` goes, the others keep their order. */
    method RemoveRequirement(index: nat)
      modifies this`requirements, this`formRequirements
      ensures requirements == WithoutIndex(old(requirements), index)
      ensures index < |old(requirements)| ==> |requirements| == |old(requirements)| - 1
      ensures Synced()
    {
      requirements := WithoutIndex(requirements, index);
      formRequirements := NonBlank(requirements);
    }
  }

  /** The remove button is offered only while more than one row exists, so the last row stays. */
  lemma RemovalNeverEmpties(reqs: seq<string>, index: nat)
    requires |reqs| > 1
    ensures |WithoutIndex(reqs, index)| >= 1
  {
  }

  // ---------------------------------------------------------------------------------------
  // Submitting

  /** `onFormSubmit`: the accepted values with blank requirements dropped; nothing else changes. */
  function OnFormSubmit(data: FormData): (r: FormData)
    ensures r.client == data.client
    ensures r.intake.(requirements := data.intake.requirements) == data.intake
    ensures forall i :: 0 <= i < |r.intake.requirements| ==> !Text.IsBlank(r.intake.requirements[i])
    ensures forall x :: x in r.intake.requirements <==> x in data.intake.requirements && !Text.IsBlank(x)
    ensures r.intake.requirements == NonBlank(data.intake.requirements)
  {
    FormData(data.client, data.intake.(requirements := NonBlank(data.intake.requirements)))
  }

  /** `handleSubmit(onFormSubmit)` as written: the resolver checks the values, then blanks go. */
  function SubmitAsWritten(values: FormInput): (r: Option<FormData>)
    ensures r.Some? <==> ClientValid(values.client) && IntakeValid(values.intake)
    ensures r.Some? ==> forall i :: 0 <= i < |r.value.intake.requirements| ==> !Text.IsBlank(r.value.intake.requirements[i])
  {
    var parsed := ParseForm(values);
    if parsed.Ok? then Some(OnFormSubmit(parsed.value)) else None
  }

  /**
   * The form as it first appears, with every other field filled in correctly: the single empty
   * row passes the schema, and the submission carries no requirement, which the schema forbids.
   */
  lemma DefaultRowSubmitsNothing(values: FormInput)
    requires ClientValid(values.client) && values.intake.requirements == [""]
    requires IntakeValid(values.intake.(requirements := ["a"]))
    ensures IntakeValid(values.intake)
    ensures SubmitAsWritten(values).Some? && SubmitAsWritten(values).value.intake.requirements == []
    ensures !IntakeValid(values.intake.(requirements := SubmitAsWritten(values).value.intake.requirements))
  {
    RequirementContentsIgnored(values.intake.(requirements := ["a"]), [""]);
    assert Text.IsBlank("");
    assert !FieldOkIntake(values.intake.(requirements := []), Requirements);
  }

  const ExampleClient := ClientInput("Ada", "Lovelace", "user@example.com", None, None)

  const ExampleIntake := IntakeInput("Site", "WEB_DEVELOPMENT", 1000, "soon", "a new website", [""], Some("MEDIUM"))

  lemma ExampleClientValid()
    ensures ClientValid(ExampleClient)
  {
    EmailAccepted();
    forall f ensures FieldOkClient(ExampleClient, f) {
    }
  }

  lemma ExampleIntakeValid()
    ensures IntakeValid(ExampleIntake.(requirements := ["a"]))
  {
    forall f ensures FieldOkIntake(ExampleIntake.(requirements := ["a"]), f) {
    }
  }

  /** Such a form exists. */
  lemma DefaultRowExample()
    ensures SubmitAsWritten(FormInput(ExampleClient, ExampleIntake)).Some?
    ensures SubmitAsWritten(FormInput(ExampleClient, ExampleIntake)).value.intake.requirements == []
  {
    ExampleClientValid();
    ExampleIntakeValid();
    DefaultRowSubmitsNothing(FormInput(ExampleClient, ExampleIntake));
  }

  /** Blanks are dropped first and the schema checks what is submitted. */
  function SubmitChecked(values: FormInput): (r: Option<FormData>)
    ensures r.Some? <==>
      ClientValid(values.client) && IntakeValid(values.intake.(requirements := NonBlank(values.intake.requirements)))
    ensures r.Some? ==>
      var reqs := r.value.intake.requirements;
      && reqs == NonBlank(values.intake.requirements)
      && 1 <= |reqs| <= 20
      && (forall i :: 0 <= i < |reqs| ==> !Text.IsBlank(reqs[i]))
  {
    var p := FormInput(values.client, values.intake.(requirements := NonBlank(values.intake.requirements)));
    AcceptedRequirements(p);
    var parsed := ParseForm(p);
    if parsed.Ok? then Some(parsed.value) else None
  }

  /** What the schema accepts it passes on unchanged, and the list has 1 to 20 entries. */
  lemma AcceptedRequirements(p: FormInput)
    ensures ParseForm(p).Ok? ==>
      && ParseForm(p).value.intake.requirements == p.intake.requirements
      && 1 <= |p.intake.requirements| <= 20
  {
    if ParseForm(p).Ok? {
      assert FieldOkIntake(p.intake, Requirements);
      assert ParseIntake(p.intake).value == WithPriority(p.intake, ParseIntake(p.intake).value.priority);
    }
  }

  /** Where the form has no blank row the two orders agree. */
  lemma CheckedAgreesWithoutBlanks(values: FormInput)
    requires forall i :: 0 <= i < |values.intake.requirements| ==> !Text.IsBlank(values.intake.requirements[i])
    ensures SubmitChecked(values) == SubmitAsWritten(values)
  {
    NonBlankKeepsFilled(values.intake.requirements);
    assert values.intake.(requirements := NonBlank(values.intake.requirements)) == values.intake;
  }

  /** The initial empty row is refused by the checked order instead of being submitted as nothing. */
  lemma CheckedRefusesDefaultRow(values: FormInput)
    requires values.intake.requirements == [""]
    ensures SubmitChecked(values).None?
  {
    assert Text.IsBlank("");
    assert !FieldOkIntake(values.intake.(requirements := []), Requirements);
  }
}
