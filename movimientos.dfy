/** The stock movements screen: the type filter, the listing, and the modal
    that registers a movement against either an item or a consumable. */
module Movimientos {
  import opened Wrappers
  import opened Js
  import opened Records
  import opened Gateway
  import Export

  /** The modal's form; every field is the text of an input or a select. */
  datatype Form = Form(itemId: string, consumibleId: string, tipo: string,
                       cantidad: string, observaciones: string)

  const EmptyForm := Form("", "", "entrada", "", "")

  /** At most one of the two references is chosen. */
  predicate Exclusive(f: Form)
  {
    f.itemId == "" || f.consumibleId == ""
  }

  /** `dataToSend`: each reference is present only when it was chosen. */
  datatype Payload = Payload(tipo: string, cantidad: IntOrNaN, observaciones: string,
                             itemId: Option<IntOrNaN>, consumibleId: Option<IntOrNaN>)

  /** `handleSaveMovimiento`'s three checks, in order, and the body it posts. */
  function Validate(f: Form): (r: Result<Payload, string>)
    ensures r.Failure? <==> f.tipo == "" || (f.itemId == "" && f.consumibleId == "") || f.cantidad == ""
    ensures f.tipo == "" ==> r == Failure("Debe seleccionar un tipo de movimiento")
    ensures f.tipo != "" && f.itemId == "" && f.consumibleId == ""
            ==> r == Failure("Debe seleccionar un item o consumible")
    ensures f.tipo != "" && (f.itemId != "" || f.consumibleId != "") && f.cantidad == ""
            ==> r == Failure("Debe ingresar una cantidad")
    ensures r.Success? ==>
      && r.value.tipo == f.tipo && r.value.cantidad == ParseInt(f.cantidad)
      && r.value.observaciones == f.observaciones
      && (r.value.itemId.Some? <==> f.itemId != "")
      && (r.value.itemId.Some? ==> r.value.itemId.value == ParseInt(f.itemId))
      && (r.value.consumibleId.Some? <==> f.consumibleId != "")
      && (r.value.consumibleId.Some? ==> r.value.consumibleId.value == ParseInt(f.consumibleId))
  {
    if f.tipo == "" then Failure("Debe seleccionar un tipo de movimiento")
    else if f.itemId == "" && f.consumibleId == "" then Failure("Debe seleccionar un item o consumible")
    else if f.cantidad == "" then Failure("Debe ingresar una cantidad")
    else
      var body := Payload(f.tipo, ParseInt(f.cantidad), f.observaciones, None, None);
      var withItem := if f.itemId != "" then body.(itemId := Some(ParseInt(f.itemId))) else body;
      Success(if f.consumibleId != "" then withItem.(consumibleId := Some(ParseInt(f.consumibleId)))
              else withItem)
  }

  /** A form whose references are exclusive sends exactly one of them. */
  lemma PayloadNamesOneTarget(f: Form)
    requires Exclusive(f) && Validate(f).Success?
    ensures Validate(f).value.itemId.Some? != Validate(f).value.consumibleId.Some?
  {
  }

  /** `getTipoBadge`: the colour of a movement type and its text in capitals. */
  function TipoBadge(tipo: string): (b: (string, string))
    ensures b.0 == "success" <==> tipo == "entrada"
    ensures b.0 == "warning" <==> tipo == "salida"
    ensures b.0 == "info" <==> tipo == "mantenimiento"
    ensures b.0 == "danger" <==> tipo == "baja"
    ensures b.0 == "secondary" <==> tipo !in {"entrada", "salida", "mantenimiento", "baja"}
    ensures b.1 == Upper(tipo) && |b.1| == |tipo| && Upper(b.1) == b.1
  {
    UpperIdempotent(tipo);
    (if tipo == "entrada" then "success"
     else if tipo == "salida" then "warning"
     else if tipo == "mantenimiento" then "info"
     else if tipo == "baja" then "danger"
     else "secondary",
     Upper(tipo))
  }

  /** A row of the listing; `formatDate` is the es-ES date-and-time formatting
      of the runtime and the type cell is the badge text. */
  function ListingRow(m: Movement, formatDate: string -> string): seq<Cell>
  {
    [ Text(MovementName(m)), Text(TipoBadge(m.tipo).1),
      if m.cantidad != 0 then Number(m.cantidad) else Text("-"),
      Text(OrDash(m.usuario)), Text(OrDash(m.observaciones)), Text(formatDate(m.createdAt)) ]
  }

  /** The listing shows what the PDF export prints: the same name, quantity,
      user and notes, and the type in capitals (the PDF writes a dash when the
      type is empty); only the date format differs. */
  lemma ListingMatchesPdf(m: Movement, formatDate: string -> string, localeDate: string -> string)
    ensures var l, p := ListingRow(m, formatDate), Export.MovementPdfRow(m, localeDate);
      && |l| == |p| == 6
      && l[0] == p[0] && l[2] == p[2] && l[3] == p[3] && l[4] == p[4]
      && (m.tipo != "" ==> l[1] == p[1])
      && (m.tipo == "" ==> l[1] == Text("") && p[1] == Text("-"))
      && (formatDate(m.createdAt) == localeDate(m.createdAt) ==> l[5] == p[5])
  {
    var u := Upper(m.tipo);
    assert |u| == |m.tipo|;
    assert TipoBadge(m.tipo).1 == u;
  }

  /** The screen's state. */
  class MovimientosPage {
    var movimientos: seq<Movement>
    var tipoFilter: string
    var form: Form
    var showModal: bool

    /** Every reachable form names at most one reference. */
    predicate Valid()
      reads this
    {
      Exclusive(form)
    }

    constructor ()
      ensures Valid()
      ensures movimientos == [] && tipoFilter == "" && form == EmptyForm && !showModal
    {
      movimientos := [];
      tipoFilter := "";
      form := EmptyForm;
      showModal := false;
    }

    /** The params `fetchMovimientos` builds and hands to `request`: the type
        only when one is chosen. */
    function FetchTipo(): (t: Option<string>)
      reads this
      ensures t.Some? <==> tipoFilter != ""
      ensures t.Some? ==> t.value == tipoFilter
    {
      if tipoFilter != "" then Some(tipoFilter) else None
    }

    /** The type select above the listing. */
    method FilterTipo(value: string)
      modifies this`tipoFilter
      ensures tipoFilter == value
    {
      tipoFilter := value;
    }

    /** `fetchMovimientos` once the request has ended. */
    method ApplyFetch(outcome: Result<seq<Movement>, string>) returns (notice: Notice)
      modifies this`movimientos
      ensures outcome.Success? ==> movimientos == outcome.value && notice == Silent
      ensures outcome.Failure? ==>
        movimientos == old(movimientos) && notice == ErrorToast("Error al cargar movimientos")
    {
      if outcome.Success? {
        movimientos := outcome.value;
        notice := Silent;
      } else {
        notice := ErrorToast("Error al cargar movimientos");
      }
    }

    /** Choosing an item clears the consumable. */
    method SelectItem(value: string)
      requires Valid()
      modifies this`form
      ensures Valid()
      ensures form == old(form).(itemId := value, consumibleId := "")
    {
      form := form.(itemId := value, consumibleId := "");
    }

    /** Choosing a consumable clears the item. */
    method SelectConsumable(value: string)
      requires Valid()
      modifies this`form
      ensures Valid()
      ensures form == old(form).(consumibleId := value, itemId := "")
    {
      form := form.(consumibleId := value, itemId := "");
    }

    method SetTipo(value: string)
      requires Valid()
      modifies this`form
      ensures Valid() && form == old(form).(tipo := value)
    {
      form := form.(tipo := value);
    }

    method SetCantidad(value: string)
      requires Valid()
      modifies this`form
      ensures Valid() && form == old(form).(cantidad := value)
    {
      form := form.(cantidad := value);
    }

    method SetObservaciones(value: string)
      requires Valid()
      modifies this`form
      ensures Valid() && form == old(form).(observaciones := value)
    {
      form := form.(observaciones := value);
    }

    /** The 'Nuevo Movimiento' button. */
    method OpenNew()
      modifies this`form, this`showModal
      ensures Valid() && form == EmptyForm && showModal
    {
      form := EmptyForm;
      showModal := true;
    }

    /** `handleCloseModal`. */
    method CloseModal()
      modifies this`form, this`showModal
      ensures Valid() && form == EmptyForm && !showModal
    {
      showModal := false;
      form := EmptyForm;
    }

    /** `handleSaveMovimiento`; `response` is how the post ends. */
    method Save(response: Response) returns (notice: Notice, request: Option<Payload>)
      requires Valid()
      modifies this`form, this`showModal
      ensures Valid()
      ensures Validate(old(form)).Failure? ==>
        && request == None && notice == ErrorToast(Validate(old(form)).error)
        && form == old(form) && showModal == old(showModal)
      ensures Validate(old(form)).Success? ==>
        && request == Some(Validate(old(form)).value)
        && (request.value.itemId.Some? != request.value.consumibleId.Some?)
      ensures Validate(old(form)).Success? && response.Succeeded? ==>
        && notice == SuccessToast("Movimiento registrado exitosamente")
        && form == EmptyForm && !showModal
      ensures Validate(old(form)).Success? && response.Failed? ==>
        && notice == FailureNotice(response.message, "Error al guardar movimiento")
        && form == old(form) && showModal == old(showModal)
    {
      var checked := Validate(form);
      if checked.Failure? {
        return ErrorToast(checked.error), None;
      }
      PayloadNamesOneTarget(form);
      request := Some(checked.value);
      if response.Succeeded? {
        notice := SuccessToast("Movimiento registrado exitosamente");
        CloseModal();
      } else {
        notice := FailureNotice(response.message, "Error al guardar movimiento");
      }
    }
  }
}
