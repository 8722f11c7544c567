/**
 * The featured-vehicles list (`TopCarContainer`): it normalises the list
 * response, shows a six-vehicle page or the whole list, toggles per-row
 * details, edits a row in place and deletes rows. Each asynchronous handler
 * is split into the step before its request and the step after the response,
 * and the response arrives as a parameter.
 */
module TopCar {
  import opened Wrappers
  import opened Js
  import opened Forms

  /** A record of the list endpoint, with the declared types; only `precio`'s type is checked at run time. */
  datatype ApiVehicle = ApiVehicle(idvehiculo: int, marca: string, kilometraje: string, precio: Scalar)

  /**
   * The decoded list body, as far as `normalizeResponse` tells shapes apart.
   * It sits beside `Js.JsValue` so that the elements of an array body have
   * the declared `ApiVehicle` record type.
   */
  datatype Body =
    | List(items: seq<ApiVehicle>)        // `Array.isArray(data)`
    | Record(fields: map<string, Body>)   // a non-null object that is not an array
    | Atom(p: Scalar)                     // null or a primitive

  /** A row of the list. */
  datatype Vehicle = Vehicle(id: int, marca: string, kilometraje: string, precio: JsNumber)

  /** How many vehicles are shown before the viewer asks for all of them. */
  const PageSize: nat := 6

  const FetchFailedMessage := "Error al obtener vehículos"
  const EmptyListMessage := "No se encontraron vehículos en la respuesta de la API"
  const UnknownErrorMessage := "Error desconocido"
  const PriceNotNumericMessage := "El precio debe ser numérico."
  const SaveFailedMessage := "Error al guardar cambios."
  const UpdatedMessage := "Vehículo actualizado correctamente."
  const DeleteFailedMessage := "Error al eliminar el vehículo."
  const DeletedMessage := "Vehículo eliminado correctamente."

  /** One element of the list body: `typeof precio === 'number' ? precio : Number(precio)`. */
  function ToVehicle(v: ApiVehicle, rt: Runtime): (r: Vehicle)
    ensures r.id == v.idvehiculo && r.marca == v.marca && r.kilometraje == v.kilometraje
    ensures r.precio == ToNumber(v.precio, rt)
  {
    Vehicle(v.idvehiculo, v.marca, v.kilometraje,
            if v.precio.Num? then v.precio.n else ToNumber(v.precio, rt))
  }

  /** `Array.isArray((data as any)[key])` */
  predicate HasList(fields: map<string, Body>, key: string) {
    key in fields && fields[key].List?
  }

  /**
   * `normalizeResponse`: a bare array maps element-wise; an object holding an
   * array under `vehicles` (tried first) or `data` is normalised as that
   * array; anything else is the empty list.
   */
  function NormalizeResponse(data: Body, rt: Runtime): (r: seq<Vehicle>)
    decreases if data.List? then 0 else 1
    ensures data.List? ==> |r| == |data.items|
    ensures data.List? ==> forall i :: 0 <= i < |r| ==>
      && r[i].id == data.items[i].idvehiculo
      && r[i].marca == data.items[i].marca
      && r[i].kilometraje == data.items[i].kilometraje
      && r[i].precio == ToNumber(data.items[i].precio, rt)
    ensures data.Atom? ==> r == []
    ensures data.Record? && !HasList(data.fields, "vehicles") && !HasList(data.fields, "data") ==> r == []
  {
    match data
    case List(items) =>
      seq(|items|, i requires 0 <= i < |items| => ToVehicle(items[i], rt))
    case Record(fields) =>
      var inner: Option<Body> :=
        if HasList(fields, "vehicles") then Some(fields["vehicles"])
        else if HasList(fields, "data") then Some(fields["data"])
        else None;
      if inner.Some? then NormalizeResponse(inner.value, rt) else []
    case Atom(_) => []
  }

  /** `{vehicles: A}` normalises exactly as `A`, whatever else the object holds. */
  lemma VehiclesWrapperIsTransparent(fields: map<string, Body>, items: seq<ApiVehicle>, rt: Runtime)
    requires "vehicles" in fields && fields["vehicles"] == List(items)
    ensures NormalizeResponse(Record(fields), rt) == NormalizeResponse(List(items), rt)
  {
  }

  /** `{data: A}` normalises exactly as `A` when `vehicles` is not an array. */
  lemma DataWrapperIsTransparent(fields: map<string, Body>, items: seq<ApiVehicle>, rt: Runtime)
    requires !HasList(fields, "vehicles")
    requires "data" in fields && fields["data"] == List(items)
    ensures NormalizeResponse(Record(fields), rt) == NormalizeResponse(List(items), rt)
  {
  }

  /** The three accepted envelopes around the same records give the same list. */
  lemma EnvelopesAgree(items: seq<ApiVehicle>, rt: Runtime)
    ensures NormalizeResponse(Record(map["vehicles" := List(items)]), rt) == NormalizeResponse(List(items), rt)
    ensures NormalizeResponse(Record(map["data" := List(items)]), rt) == NormalizeResponse(List(items), rt)
  {
    VehiclesWrapperIsTransparent(map["vehicles" := List(items)], items, rt);
    assert !HasList(map["data" := List(items)], "vehicles");
    DataWrapperIsTransparent(map["data" := List(items)], items, rt);
  }

  /** Unwrapping goes one level only: a wrapper around a wrapper is the empty list. */
  lemma NestedWrapperIsEmpty(key: string, inner: map<string, Body>, rt: Runtime)
    requires key == "vehicles" || key == "data"
    ensures NormalizeResponse(Record(map[key := Record(inner)]), rt) == []
  {
    var outer := map[key := Record(inner)];
    assert !HasList(outer, "vehicles") && !HasList(outer, "data");
  }

  /**
   * The rows after a successful save: rows whose id is `id` take the
   * payload's brand, mileage and price; every other row, the order and the
   * length are unchanged.
   */
  function ApplyEdit(vs: seq<Vehicle>, id: int, p: Payload): (r: seq<Vehicle>)
    ensures |r| == |vs|
    ensures forall i :: 0 <= i < |vs| ==> r[i].id == vs[i].id
    ensures forall i :: 0 <= i < |vs| && vs[i].id != id ==> r[i] == vs[i]
    ensures forall i :: 0 <= i < |vs| && vs[i].id == id ==>
      r[i].marca == p.marca && r[i].kilometraje == p.kilometraje && r[i].precio == p.precio
  {
    seq(|vs|, i requires 0 <= i < |vs| =>
      if vs[i].id == id then vs[i].(marca := p.marca, kilometraje := p.kilometraje, precio := p.precio)
      else vs[i])
  }

  /** Saving the same edit twice is saving it once. */
  lemma ApplyEditIdempotent(vs: seq<Vehicle>, id: int, p: Payload)
    ensures ApplyEdit(ApplyEdit(vs, id, p), id, p) == ApplyEdit(vs, id, p)
  {
  }

  /**
   * `prev.filter((v) => v.id !== id)`: exactly the rows with another id
   * remain, and a list without `id` is returned as it is.
   */
  function Without(vs: seq<Vehicle>, id: int): (r: seq<Vehicle>)
    ensures forall v :: v in r <==> v in vs && v.id != id
    ensures |r| <= |vs|
    ensures (forall v :: v in vs ==> v.id != id) ==> r == vs
  {
    if vs == [] then []
    else (if vs[0].id == id then [] else [vs[0]]) + Without(vs[1..], id)
  }

  /** Filtering distributes over concatenation, so the kept rows stay in their order. */
  lemma {:induction false} WithoutAppend(a: seq<Vehicle>, b: seq<Vehicle>, id: int)
    ensures Without(a + b, id) == Without(a, id) + Without(b, id)
  {
    if a == [] {
      assert a + b == b;
    } else {
      var t := a[1..];
      var h := if a[0].id == id then [] else [a[0]];
      assert a + b == [a[0]] + (t + b);
      WithoutAppend(t, b, id);
      calc {
        Without(a + b, id);
        h + Without(t + b, id);
        h + (Without(t, id) + Without(b, id));
        (h + Without(t, id)) + Without(b, id);
      }
    }
  }

  /** Deleting the same id twice is deleting it once. */
  lemma WithoutIdempotent(vs: seq<Vehicle>, id: int)
    ensures Without(Without(vs, id), id) == Without(vs, id)
  {
  }

  /** The expanded set after `toggleVehicleDetails(id)`: only `id`'s membership flips. */
  function Toggle(s: set<int>, id: int): (r: set<int>)
    ensures id in r <==> id !in s
    ensures forall x :: x != id ==> (x in r <==> x in s)
  {
    if id in s then s - {id} else s + {id}
  }

  /** Toggling the same row twice restores the expanded set. */
  lemma ToggleTwice(s: set<int>, id: int)
    ensures Toggle(Toggle(s, id), id) == s
  {
  }

  /** What ended a list request: `fetch` or `response.json()` threw, the status was not ok, or a body arrived. */
  datatype FetchOutcome = FetchRejected(reason: Failure) | FetchNotOk | FetchDelivered(body: Body)

  /** What ended an update or delete request. */
  datatype Outcome = Succeeded | Failed(reason: Failure)

  /** The PUT a save sends: the row's id and the payload built from the draft. */
  datatype SaveRequest = SaveRequest(id: int, payload: Payload)

  class TopCarContainer {
    var showAllVehicles: bool
    var vehicles: seq<Vehicle>
    var loading: bool
    var error: Option<string>
    var expandedVehicles: set<int>
    var editingId: Option<int>
    var editForm: Form
    var saving: bool
    var saveError: Option<string>
    var saveOk: Option<string>
    var deletingId: Option<int>
    var deleteError: Option<string>
    var deleteOk: Option<string>

    /** The initial state of every `useState`. */
    constructor ()
      ensures !showAllVehicles && vehicles == [] && loading && error == None
      ensures expandedVehicles == {} && editingId == None && editForm == EmptyForm && !saving
      ensures saveError == None && saveOk == None
      ensures deletingId == None && deleteError == None && deleteOk == None
    {
      showAllVehicles := false;
      vehicles := [];
      loading := true;
      error := None;
      expandedVehicles := {};
      editingId := None;
      editForm := EmptyForm;
      saving := false;
      saveError := None;
      saveOk := None;
      deletingId := None;
      deleteError := None;
      deleteOk := None;
    }

    /** `vehiclesToShow`: the first six vehicles (fewer if there are fewer), or all when asked. */
    function VehiclesToShow(): (r: seq<Vehicle>)
      reads this
      ensures showAllVehicles ==> r == vehicles
      ensures !showAllVehicles ==> |r| == (if |vehicles| < PageSize then |vehicles| else PageSize)
      ensures r == vehicles[..|r|]
    {
      if showAllVehicles then vehicles
      else vehicles[..if |vehicles| < PageSize then |vehicles| else PageSize]
    }

    /** The "see all" and "see less" buttons. */
    method SetShowAllVehicles(show: bool)
      modifies this`showAllVehicles
      ensures showAllVehicles == show
    {
      showAllVehicles := show;
    }

    /** `fetchVehicles` before the request: the spinner is up and the error cleared. */
    method BeginFetch()
      modifies this`loading, this`error
      ensures loading && error == None
    {
      loading := true;
      error := None;
    }

    /**
     * `fetchVehicles` after the response: a non-empty normalised list
     * replaces the rows; every failure, the empty list included, sets the
     * error and keeps the previous rows. The spinner is down in every case.
     */
    method FinishFetch(outcome: FetchOutcome, rt: Runtime)
      modifies this`loading, this`error, this`vehicles
      ensures !loading
      ensures outcome.FetchRejected? ==>
        vehicles == old(vehicles) && error == Some(MessageOf(outcome.reason, UnknownErrorMessage))
      ensures outcome.FetchNotOk? ==>
        vehicles == old(vehicles) && error == Some(FetchFailedMessage)
      ensures outcome.FetchDelivered? && NormalizeResponse(outcome.body, rt) == [] ==>
        vehicles == old(vehicles) && error == Some(EmptyListMessage)
      ensures outcome.FetchDelivered? && NormalizeResponse(outcome.body, rt) != [] ==>
        vehicles == NormalizeResponse(outcome.body, rt) && error == old(error)
    {
      match outcome {
      case FetchRejected(reason) =>
        error := Some(MessageOf(reason, UnknownErrorMessage));
      case FetchNotOk =>
        error := Some(MessageOf(Thrown(FetchFailedMessage), UnknownErrorMessage));
      case FetchDelivered(body) =>
        var all := NormalizeResponse(body, rt);
        if |all| == 0 {
          error := Some(MessageOf(Thrown(EmptyListMessage), UnknownErrorMessage));
        } else {
          vehicles := all;
        }
      }
      loading := false;
    }

    /** `toggleVehicleDetails`. */
    method ToggleVehicleDetails(vehicleId: int)
      modifies this`expandedVehicles
      ensures expandedVehicles == Toggle(old(expandedVehicles), vehicleId)
    {
      expandedVehicles := Toggle(expandedVehicles, vehicleId);
    }

    /** `startEdit`: the row enters edit mode with a draft copied from it (the price as `String(precio)`). */
    method StartEdit(v: Vehicle, rt: Runtime)
      modifies this`editingId, this`editForm, this`saveError, this`saveOk
      ensures editingId == Some(v.id)
      ensures editForm == Form(v.marca, v.kilometraje, rt.numberText(v.precio))
      ensures saveError == None && saveOk == None
    {
      editingId := Some(v.id);
      editForm := Form(v.marca, v.kilometraje, rt.numberText(v.precio));
      saveError := None;
      saveOk := None;
    }

    /** `cancelEdit`: leaves edit mode and clears the save messages; the draft is kept. */
    method CancelEdit()
      modifies this`editingId, this`saveError, this`saveOk
      ensures editingId == None && saveError == None && saveOk == None
    {
      editingId := None;
      saveError := None;
      saveOk := None;
    }

    /** `onEditChange`. */
    method OnEditChange(name: string, value: string)
      modifies this`editForm
      ensures editForm == SetField(old(editForm), name, value)
    {
      editForm := SetField(editForm, name, value);
    }

    /**
     * `saveEdit` before the request. With no row in edit mode nothing
     * happens. Otherwise the payload is built; a NaN price sets the error and
     * sends nothing; any other price sends the PUT for the edited row. The
     * rows and the edit mode are not touched here.
     */
    method BeginSaveEdit(rt: Runtime) returns (request: Option<SaveRequest>)
      modifies this`saving, this`saveError, this`saveOk
      ensures old(editingId).None? ==>
        request == None && saving == old(saving) && saveError == old(saveError) && saveOk == old(saveOk)
      ensures old(editingId).Some? ==> saveOk == None
      ensures old(editingId).Some? && IsNaN(ToPayload(editForm, rt).precio) ==>
        request == None && !saving && saveError == Some(PriceNotNumericMessage)
      ensures old(editingId).Some? && !IsNaN(ToPayload(editForm, rt).precio) ==>
        request == Some(SaveRequest(editingId.value, ToPayload(editForm, rt))) && saving && saveError == None
    {
      if editingId.None? {
        return None;
      }
      saving := true;
      saveError := None;
      saveOk := None;
      var payload := ToPayload(editForm, rt);
      if IsNaN(payload.precio) {
        saveError := Some(PriceNotNumericMessage);
        saving := false;
        request := None;
      } else {
        request := Some(SaveRequest(editingId.value, payload));
      }
    }

    /**
     * `saveEdit` after the response. On success only the rows with the
     * request's id are replaced and edit mode ends; on failure the rows and
     * edit mode stay and the error is shown. `saving` ends false.
     */
    method FinishSaveEdit(request: SaveRequest, outcome: Outcome)
      modifies this`vehicles, this`saveOk, this`saveError, this`editingId, this`saving
      ensures !saving
      ensures outcome.Succeeded? ==>
        && vehicles == ApplyEdit(old(vehicles), request.id, request.payload)
        && editingId == None && saveOk == Some(UpdatedMessage) && saveError == old(saveError)
      ensures outcome.Failed? ==>
        && vehicles == old(vehicles) && editingId == old(editingId) && saveOk == old(saveOk)
        && saveError == Some(MessageOf(outcome.reason, SaveFailedMessage))
    {
      match outcome {
      case Succeeded =>
        vehicles := ApplyEdit(vehicles, request.id, request.payload);
        saveOk := Some(UpdatedMessage);
        editingId := None;
      case Failed(reason) =>
        saveError := Some(MessageOf(reason, SaveFailedMessage));
      }
      saving := false;
    }

    /**
     * `deleteVehicle` before the request: a declined confirmation changes
     * nothing and sends nothing. `editingAtCall` is the `editingId` the
     * handler captured, which the step after the response compares with `id`.
     */
    method BeginDelete(id: int, confirmed: bool) returns (sent: bool, editingAtCall: Option<int>)
      modifies this`deleteError, this`deleteOk, this`deletingId
      ensures sent == confirmed
      ensures editingAtCall == old(editingId)
      ensures !confirmed ==>
        deleteError == old(deleteError) && deleteOk == old(deleteOk) && deletingId == old(deletingId)
      ensures confirmed ==> deleteError == None && deleteOk == None && deletingId == Some(id)
    {
      editingAtCall := editingId;
      if !confirmed {
        return false, editingAtCall;
      }
      deleteError := None;
      deleteOk := None;
      deletingId := Some(id);
      sent := true;
    }

    /**
     * `deleteVehicle` after the response. On success exactly the rows with
     * `id` go, `id` leaves the expanded set and edit mode ends if it was on
     * that row when the handler was called (`editingAtCall`, the value the
     * handler captured, which `BeginDelete` returns); on failure only the error changes. `deletingId`
     * ends null.
     */
    method FinishDelete(id: int, editingAtCall: Option<int>, outcome: Outcome)
      modifies this`vehicles, this`expandedVehicles, this`editingId
      modifies this`deleteOk, this`deleteError, this`deletingId
      ensures deletingId == None
      ensures outcome.Succeeded? ==>
        && vehicles == Without(old(vehicles), id)
        && expandedVehicles == old(expandedVehicles) - {id}
        && editingId == (if editingAtCall == Some(id) then None else old(editingId))
        && deleteOk == Some(DeletedMessage) && deleteError == old(deleteError)
      ensures outcome.Failed? ==>
        && vehicles == old(vehicles) && expandedVehicles == old(expandedVehicles)
        && editingId == old(editingId) && deleteOk == old(deleteOk)
        && deleteError == Some(MessageOf(outcome.reason, DeleteFailedMessage))
    {
      match outcome {
      case Succeeded =>
        vehicles := Without(vehicles, id);
        expandedVehicles := expandedVehicles - {id};
        if editingAtCall == Some(id) {
          editingId := None;
        }
        deleteOk := Some(DeletedMessage);
      case Failed(reason) =>
        deleteError := Some(MessageOf(reason, DeleteFailedMessage));
      }
      deletingId := None;
    }
  }
}
