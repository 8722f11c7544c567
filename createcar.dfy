/**
 * The creation form (`CreatedCar`): field edits, the ordered validation,
 * and the submit handler split into the step before the POST and the step
 * after its response.
 */
module CreateCar {
  import opened Wrappers
  import opened Js
  import opened Forms

  const BrandRequiredMessage := "El nombre del vehículo (marca) es obligatorio."
  const PriceNotNumberMessage := "El precio debe ser un número."
  const MileageNotNumberMessage := "El kilometraje debe ser un número."
  const CreatedMessage := "Vehículo creado correctamente."
  const CreateFailedMessage := "Error desconocido al crear el vehículo."

  /** `!s.trim()`: true exactly when `s` is nothing but white space. */
  predicate Blank(s: string)
    ensures Blank(s) <==> forall i :: 0 <= i < |s| ==> IsWhite(s[i])
  {
    TrimEmptyIffAllWhite(s);
    Trim(s) == ""
  }

  /** The rule for price and mileage: not blank, and `Number(s)` is not NaN. */
  predicate NumericText(s: string, rt: Runtime)
    ensures NumericText(s, rt) <==>
      (exists i :: 0 <= i < |s| && !IsWhite(s[i])) && !IsNaN(rt.number(s))
  {
    !Blank(s) && !IsNaN(rt.number(s))
  }

  /**
   * `validate`: the brand is checked first, then the price, then the
   * mileage; the first failing check's message is returned, and `None`
   * exactly when all three pass.
   */
  function Validate(form: Form, rt: Runtime): (r: Option<string>)
    ensures Blank(form.marca) ==> r == Some(BrandRequiredMessage)
    ensures !Blank(form.marca) && !NumericText(form.precio, rt) ==> r == Some(PriceNotNumberMessage)
    ensures !Blank(form.marca) && NumericText(form.precio, rt) && !NumericText(form.kilometraje, rt) ==>
      r == Some(MileageNotNumberMessage)
    ensures r == None <==>
      !Blank(form.marca) && NumericText(form.precio, rt) && NumericText(form.kilometraje, rt)
  {
    if Trim(form.marca) == "" then Some(BrandRequiredMessage)
    else if Trim(form.precio) == "" || IsNaN(rt.number(form.precio)) then Some(PriceNotNumberMessage)
    else if Trim(form.kilometraje) == "" || IsNaN(rt.number(form.kilometraje)) then Some(MileageNotNumberMessage)
    else None
  }

  /** A blank brand is reported whatever the price and mileage hold. */
  lemma BrandCheckedFirst(form: Form, precio: string, kilometraje: string, rt: Runtime)
    requires Blank(form.marca)
    ensures Validate(form.(precio := precio, kilometraje := kilometraje), rt) == Validate(form, rt)
  {
  }

  /** The mileage is only looked at once brand and price pass. */
  lemma MileageCheckedLast(form: Form, kilometraje: string, rt: Runtime)
    requires Blank(form.marca) || !NumericText(form.precio, rt)
    ensures Validate(form.(kilometraje := kilometraje), rt) == Validate(form, rt)
  {
  }

  /** A form that passes validation yields a payload with a non-empty trimmed brand and a numeric price. */
  lemma ValidFormGivesNumericPayload(form: Form, rt: Runtime)
    requires Validate(form, rt) == None
    ensures var p := ToPayload(form, rt);
      p.marca != "" && IsTrimmed(p.marca) && !IsNaN(p.precio) && p.kilometraje != ""
  {
    var p := ToPayload(form, rt);
    TrimIdempotent(form.kilometraje);
    assert Trim(p.kilometraje) == Trim(form.kilometraje);
  }

  /** What ended the POST: it threw (network, or a non-ok status), or it answered with this body text. */
  datatype PostOutcome = PostFailed(reason: Failure) | PostCreated(body: string)

  class CreatedCar {
    var form: Form
    var submitting: bool
    var error: Option<string>
    var okMsg: Option<string>

    constructor ()
      ensures form == EmptyForm && !submitting && error == None && okMsg == None
    {
      form := EmptyForm;
      submitting := false;
      error := None;
      okMsg := None;
    }

    /** `onChange`. */
    method OnChange(name: string, value: string)
      modifies this`form
      ensures form == SetField(old(form), name, value)
    {
      form := SetField(form, name, value);
    }

    /**
     * `handleSubmit` before the request. A failing validation shows its
     * message and sends nothing; the form is never touched here. Otherwise
     * the payload is built and `submitting` is raised.
     */
    method BeginSubmit(rt: Runtime) returns (payload: Option<Payload>)
      modifies this`error, this`okMsg, this`submitting
      ensures okMsg == None
      ensures payload.None? <==> Validate(form, rt).Some?
      ensures Validate(form, rt).Some? ==> error == Validate(form, rt) && submitting == old(submitting)
      ensures Validate(form, rt).None? ==> payload == Some(ToPayload(form, rt)) && error == None && submitting
    {
      error := None;
      okMsg := None;
      var validation := Validate(form, rt);
      if validation.Some? {
        error := validation;
        return None;
      }
      payload := Some(ToPayload(form, rt));
      submitting := true;
    }

    /**
     * `handleSubmit` after the response. On success the ok message is shown,
     * the form is emptied and `created` is what `onCreated` receives: the
     * parsed body, or null when it is not JSON. On failure only the error
     * changes and `onCreated` is not called. `submitting` ends false.
     */
    method FinishSubmit(outcome: PostOutcome, rt: Runtime) returns (created: Option<JsValue>)
      modifies this`form, this`okMsg, this`error, this`submitting
      ensures !submitting
      ensures outcome.PostCreated? ==>
        && okMsg == Some(CreatedMessage) && form == EmptyForm && error == old(error)
        && created == Some(rt.parse(outcome.body).GetOr(JsNull))
      ensures outcome.PostFailed? ==>
        && created == None && form == old(form) && okMsg == old(okMsg)
        && error == Some(MessageOf(outcome.reason, CreateFailedMessage))
    {
      match outcome {
        case PostCreated(body) =>
          var parsed := rt.parse(body);
          var value := if parsed.Some? then parsed.value else JsNull;
          okMsg := Some(CreatedMessage);
          form := EmptyForm;
          created := Some(value);
        case PostFailed(reason) =>
          error := Some(MessageOf(reason, CreateFailedMessage));
          created := None;
      }
      submitting := false;
    }
  }
}
