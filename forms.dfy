/**
 * The three-field vehicle draft that both the inline edit form of the
 * vehicle list (`editForm`) and the creation form (`form`) hold as strings,
 * the change handler both use (`{ ...f, [name]: value }`), and the payload
 * both build from it before a request.
 */
module Forms {
  import opened Js

  /** The draft as typed by the viewer; every field is a string. */
  datatype Form = Form(marca: string, kilometraje: string, precio: string)

  const EmptyForm: Form := Form("", "", "")

  /** The body of a create or update request. */
  datatype Payload = Payload(marca: string, kilometraje: string, precio: JsNumber)

  /** The input names the forms bind to their fields. */
  const FieldNames: set<string> := {"marca", "kilometraje", "precio"}

  /** Reads the field an input name is bound to. */
  function Field(f: Form, name: string): (r: string)
    requires name in FieldNames
  {
    if name == "marca" then f.marca
    else if name == "kilometraje" then f.kilometraje
    else f.precio
  }

  /**
   * `{ ...f, [name]: value }`: the named field takes `value` and every other
   * field keeps its value. A name outside the three adds a key that nothing
   * reads, so the draft is observably unchanged.
   */
  function SetField(f: Form, name: string, value: string): (r: Form)
    ensures name in FieldNames ==> Field(r, name) == value
    ensures forall other :: other in FieldNames && other != name ==> Field(r, other) == Field(f, other)
    ensures name !in FieldNames ==> r == f
  {
    if name == "marca" then f.(marca := value)
    else if name == "kilometraje" then f.(kilometraje := value)
    else if name == "precio" then f.(precio := value)
    else f
  }

  /** Writing back what a field already holds changes nothing; writing twice keeps the last write. */
  lemma SetFieldLaws(f: Form, name: string, v: string, w: string)
    requires name in FieldNames
    ensures SetField(f, name, Field(f, name)) == f
    ensures SetField(SetField(f, name, v), name, w) == SetField(f, name, w)
  {
  }

  /** The request body: trimmed brand and mileage, and `Number(precio)` of the untrimmed price text. */
  function ToPayload(f: Form, rt: Runtime): (p: Payload)
    ensures p.marca == Trim(f.marca) && p.kilometraje == Trim(f.kilometraje)
    ensures IsTrimmed(p.marca) && IsTrimmed(p.kilometraje)
    ensures p.precio == rt.number(f.precio)
  {
    TrimIsTrimmedSlice(f.marca);
    TrimIsTrimmedSlice(f.kilometraje);
    Payload(Trim(f.marca), Trim(f.kilometraje), rt.number(f.precio))
  }
}
