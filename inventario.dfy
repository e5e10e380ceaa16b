/** The equipment inventory screen: its filters and page, the item modal with
    its validation, and the batch import of spreadsheet rows. */
module Inventario {
  import opened Wrappers
  import opened Js
  import opened Records
  import opened Gateway
  import Seqs
  import Pagination
  import Export

  const PerPage := 10

  /** `filtros`: the state and the search text. */
  datatype Filters = Filters(estado: string, search: string)

  const NoFilters := Filters("", "")

  datatype FilterKey = Estado | Search

  /** `{ ...filtros, [key]: value }`. */
  function WithFilter(f: Filters, key: FilterKey, value: string): (r: Filters)
    ensures key == Estado ==> r == Filters(value, f.search)
    ensures key == Search ==> r == Filters(f.estado, value)
  {
    match key
    case Estado => f.(estado := value)
    case Search => f.(search := value)
  }

  /** The params object `fetchItems` builds and hands to `request`: state and
      search only when set. */
  datatype Params = Params(page: int, perPage: int, estado: Option<string>, search: Option<string>)

  function FetchParams(f: Filters, page: int): (p: Params)
    ensures p.page == page && p.perPage == PerPage
    ensures p.estado.Some? <==> f.estado != ""
    ensures p.estado.Some? ==> p.estado.value == f.estado
    ensures p.search.Some? <==> f.search != ""
    ensures p.search.Some? ==> p.search.value == f.search
  {
    Params(page, PerPage,
           if f.estado != "" then Some(f.estado) else None,
           if f.search != "" then Some(f.search) else None)
  }

  /** What the amount input holds: the text typed into it, or the amount of
      the edited item, a number, here in hundredths. */
  datatype Amount = Typed(text: string) | Loaded(hundredths: int)

  /** The item modal's form. */
  datatype Form = Form(codigo: string, nombre: string, descripcion: string, categoriaId: Value,
                       laboratorioId: Value, estado: string, valor: Amount)

  const EmptyForm := Form("", "", "", Str(""), Str(""), "activo", Typed(""))

  /** The body of a save. `valor` is the form's value before `parseFloat`. */
  datatype Payload = Payload(codigo: string, nombre: string, descripcion: string,
                             categoriaId: IntOrNaN, laboratorioId: IntOrNaN, estado: string,
                             valor: Amount, carreraId: int, fechaAdquisicion: string,
                             responsableId: int)

  /** `handleSaveItem`'s two checks, in order, and `dataToSend`; `isoNow` is the
      current time as `toISOString` gives it. */
  function Validate(f: Form, isoNow: string): (r: Result<Payload, string>)
    ensures r.Failure? <==>
      f.codigo == "" || f.nombre == "" || !Truthy(f.categoriaId) || !Truthy(f.laboratorioId)
    ensures (f.codigo == "" || f.nombre == "") ==> r == Failure("Código y nombre son requeridos")
    ensures f.codigo != "" && f.nombre != "" && (!Truthy(f.categoriaId) || !Truthy(f.laboratorioId))
            ==> r == Failure("Categoría y laboratorio son requeridos")
    ensures r.Success? ==>
      && r.value.codigo == f.codigo && r.value.nombre == f.nombre
      && r.value.descripcion == f.descripcion && r.value.estado == f.estado
      && r.value.categoriaId == ParseIntValue(f.categoriaId)
      && r.value.laboratorioId == ParseIntValue(f.laboratorioId)
      && r.value.valor == f.valor
      && r.value.carreraId == 1 && r.value.responsableId == 1
      && r.value.fechaAdquisicion == Export.DatePart(isoNow)
  {
    if f.codigo == "" || f.nombre == "" then Failure("Código y nombre son requeridos")
    else if !Truthy(f.categoriaId) || !Truthy(f.laboratorioId) then
      Failure("Categoría y laboratorio son requeridos")
    else Success(Payload(f.codigo, f.nombre, f.descripcion, ParseIntValue(f.categoriaId),
                         ParseIntValue(f.laboratorioId), f.estado, f.valor, 1,
                         Export.DatePart(isoNow), 1))
  }

  /** The acquisition date sent is today's date part of the timestamp. */
  lemma SaveDatesToday(f: Form, date: string, time: string)
    requires 'T' !in date && Validate(f, date + "T" + time).Success?
    ensures Validate(f, date + "T" + time).value.fechaAdquisicion == date
  {
    Export.DatePartOfTimestamp(date, time);
  }

  /** `handleEdit`'s form: missing description, category, laboratory and value
      become ''. The amount is a number, so `valor || ''` keeps it unless it
      is 0. */
  function FormOf(it: Item): (f: Form)
    ensures f.codigo == it.codigo && f.nombre == it.nombre && f.estado == it.estado
    ensures Truthy(f.categoriaId) <==> it.categoriaId != 0
    ensures Truthy(f.laboratorioId) <==> it.laboratorioId != 0
    ensures it.valor == 0 ==> f.valor == Typed("")
    ensures it.valor != 0 ==> f.valor == Loaded(it.valor)
  {
    Form(it.codigo, it.nombre, it.descripcion, NumberOrEmpty(it.categoriaId),
         NumberOrEmpty(it.laboratorioId), it.estado,
         if it.valor != 0 then Loaded(it.valor) else Typed(""))
  }

  /** Saving an edited item unchanged sends its own code, name, description,
      state and references, and its amount unless that is 0; it is rejected
      exactly when a required field is empty or a reference is 0. */
  lemma EditSaveRoundTrip(it: Item, isoNow: string)
    ensures Validate(FormOf(it), isoNow).Success? <==>
      it.codigo != "" && it.nombre != "" && it.categoriaId != 0 && it.laboratorioId != 0
    ensures Validate(FormOf(it), isoNow).Success? ==>
      var p := Validate(FormOf(it), isoNow).value;
      && p.codigo == it.codigo && p.nombre == it.nombre && p.descripcion == it.descripcion
      && p.estado == it.estado
      && p.categoriaId == Int(it.categoriaId) && p.laboratorioId == Int(it.laboratorioId)
      && (it.valor != 0 ==> p.valor == Loaded(it.valor))
      && (it.valor == 0 ==> p.valor == Typed(""))
  {
  }

  function SavedText(r: Request<Payload>): string
  {
    if r.Put? then "Item actualizado exitosamente" else "Item creado exitosamente"
  }

  /** `getEstadoBadge`: the colour of an item's state and its text in capitals. */
  function EstadoBadge(estado: string): (b: (string, string))
    ensures b.0 == "success" <==> estado == "activo"
    ensures b.0 == "warning" <==> estado == "mantenimiento"
    ensures b.0 == "danger" <==> estado == "baja"
    ensures b.0 == "secondary" <==> estado !in {"activo", "mantenimiento", "baja"}
    ensures b.1 == Upper(estado) && |b.1| == |estado| && Upper(b.1) == b.1
  {
    UpperIdempotent(estado);
    (if estado == "activo" then "success"
     else if estado == "mantenimiento" then "warning"
     else if estado == "baja" then "danger"
     else "secondary",
     Upper(estado))
  }

  // ---------------------------------------------------------------- import

  /** A row is imported only when it has a code and a name. */
  predicate HasKeyFields(row: Object)
  {
    Truthy(Prop(row, "codigo")) && Truthy(Prop(row, "nombre"))
  }

  /** The body posted for one imported row. `valor` is the cell before
      `parseFloat`. */
  datatype ImportPayload = ImportPayload(codigo: Value, nombre: Value, descripcion: Value,
                                         categoriaId: Value, laboratorioId: Value, estado: Value,
                                         valor: Value, carreraId: int, fechaAdquisicion: string,
                                         responsableId: int)

  /** The defaults of an imported row: no description, category 1, laboratory
      1, state 'activo'. */
  function ImportPayloadOf(row: Object, today: string): (p: ImportPayload)
    ensures p.codigo == Prop(row, "codigo") && p.nombre == Prop(row, "nombre")
    ensures Truthy(Prop(row, "descripcion")) ==> p.descripcion == Prop(row, "descripcion")
    ensures !Truthy(Prop(row, "descripcion")) ==> p.descripcion == Str("")
    ensures Truthy(Prop(row, "categoria_id")) ==> p.categoriaId == Prop(row, "categoria_id")
    ensures !Truthy(Prop(row, "categoria_id")) ==> p.categoriaId == Num(1)
    ensures Truthy(Prop(row, "laboratorio_id")) ==> p.laboratorioId == Prop(row, "laboratorio_id")
    ensures !Truthy(Prop(row, "laboratorio_id")) ==> p.laboratorioId == Num(1)
    ensures !Truthy(Prop(row, "estado")) ==> p.estado == Str("activo")
    ensures Truthy(Prop(row, "estado")) ==> p.estado == Prop(row, "estado")
    ensures p.valor == Prop(row, "valor")
    ensures p.carreraId == 1 && p.responsableId == 1 && p.fechaAdquisicion == today
  {
    ImportPayload(Prop(row, "codigo"), Prop(row, "nombre"),
                  OrValue(Prop(row, "descripcion"), Str("")),
                  OrValue(Prop(row, "categoria_id"), Num(1)),
                  OrValue(Prop(row, "laboratorio_id"), Num(1)),
                  OrValue(Prop(row, "estado"), Str("activo")),
                  Prop(row, "valor"), 1, today, 1)
  }

  /** A sheet's cells are what an import posts: for rows that fill in
      description, category, laboratory and state, two rows give the same body
      on one day exactly when they agree on the seven imported columns. */
  lemma ImportPayloadReflectsRow(r1: Object, r2: Object, today: string)
    requires Truthy(Prop(r1, "descripcion")) && Truthy(Prop(r2, "descripcion"))
    requires Truthy(Prop(r1, "categoria_id")) && Truthy(Prop(r2, "categoria_id"))
    requires Truthy(Prop(r1, "laboratorio_id")) && Truthy(Prop(r2, "laboratorio_id"))
    requires Truthy(Prop(r1, "estado")) && Truthy(Prop(r2, "estado"))
    ensures ImportPayloadOf(r1, today) == ImportPayloadOf(r2, today) <==>
      && Prop(r1, "codigo") == Prop(r2, "codigo")
      && Prop(r1, "nombre") == Prop(r2, "nombre")
      && Prop(r1, "descripcion") == Prop(r2, "descripcion")
      && Prop(r1, "categoria_id") == Prop(r2, "categoria_id")
      && Prop(r1, "laboratorio_id") == Prop(r2, "laboratorio_id")
      && Prop(r1, "estado") == Prop(r2, "estado")
      && Prop(r1, "valor") == Prop(r2, "valor")
  {
  }

  /** The requests an import sends, row by row, in order. */
  function ImportRequests(rows: seq<Object>, today: string): seq<ImportPayload>
  {
    if rows == [] then []
    else
      var last := rows[|rows| - 1];
      ImportRequests(rows[..|rows| - 1], today)
        + (if HasKeyFields(last) then [ImportPayloadOf(last, today)] else [])
  }

  /** The requests are the payloads of exactly the rows with a code and a name,
      in their order in the sheet. */
  lemma {:induction false} ImportRequestsOfKeyedRows(rows: seq<Object>, today: string)
    ensures ImportRequests(rows, today)
            == Seqs.Map(Seqs.Filter(rows, HasKeyFields), (r: Object) => ImportPayloadOf(r, today))
  {
    var f := (r: Object) => ImportPayloadOf(r, today);
    if rows != [] {
      var init, last := rows[..|rows| - 1], rows[|rows| - 1];
      assert rows == init + [last];
      ImportRequestsOfKeyedRows(init, today);
      Seqs.FilterAppend(init, [last], HasKeyFields);
      Seqs.MapAppend(Seqs.Filter(init, HasKeyFields), Seqs.Filter([last], HasKeyFields), f);
      assert Seqs.Filter([last], HasKeyFields) == (if HasKeyFields(last) then [last] else []) by {
        assert [last][1..] == [];
      }
    }
  }

  /** The number of the first `n` requests the server accepts. */
  function CountAccepted(n: nat, accepted: nat -> bool): (c: nat)
    ensures c <= n
  {
    if n == 0 then 0 else CountAccepted(n - 1, accepted) + (if accepted(n - 1) then 1 else 0)
  }

  /** The loop of `handleImportExcel`. Request k (counting only the requests
      sent) succeeds when `accepted(k)`. A failure is counted and the loop goes
      on, so the rows sent do not depend on the answers. */
  method ImportRows(rows: seq<Object>, accepted: nat -> bool, today: string)
    returns (importados: nat, errores: nat, sent: seq<ImportPayload>)
    ensures sent == ImportRequests(rows, today)
    ensures importados == CountAccepted(|sent|, accepted)
    ensures importados + errores == |sent| == |Seqs.Filter(rows, HasKeyFields)|
  {
    importados, errores, sent := 0, 0, [];
    var i := 0;
    while i < |rows|
      invariant 0 <= i <= |rows|
      invariant sent == ImportRequests(rows[..i], today)
      invariant importados == CountAccepted(|sent|, accepted)
      invariant importados + errores == |sent|
    {
      assert rows[..i + 1][..i] == rows[..i];
      var row := rows[i];
      if HasKeyFields(row) {
        var k := |sent|;
        sent := sent + [ImportPayloadOf(row, today)];
        if accepted(k) {
          importados := importados + 1;
        } else {
          errores := errores + 1;
        }
      }
      i := i + 1;
    }
    assert rows[..|rows|] == rows;
    ImportRequestsOfKeyedRows(rows, today);
  }

  /** When every request succeeds nothing is an error, and when every one fails
      nothing is imported. */
  lemma {:induction false} ImportCountsExtremes(n: nat, accepted: nat -> bool)
    ensures (forall k :: accepted(k)) ==> CountAccepted(n, accepted) == n
    ensures (forall k :: !accepted(k)) ==> CountAccepted(n, accepted) == 0
  {
    if n > 0 {
      ImportCountsExtremes(n - 1, accepted);
    }
  }

  /** The toast after an import. */
  function ImportSummary(importados: nat, errores: nat): string
  {
    "✓ Importados: " + IntToString(importados) + ", Errores: " + IntToString(errores)
  }

  /** The screen's state. */
  class InventarioPage {
    var items: seq<Item>
    var filtros: Filters
    var currentPage: int
    var totalPages: int
    var form: Form
    var editingId: Option<int>
    var showModal: bool
    var showImport: bool

    /** The page and the page count are at least 1. */
    predicate Valid()
      reads this
    {
      currentPage >= 1 && totalPages >= 1
    }

    constructor ()
      ensures Valid()
      ensures items == [] && filtros == NoFilters && currentPage == 1 && totalPages == 1
      ensures form == EmptyForm && editingId == None && !showModal && !showImport
    {
      items := [];
      filtros := NoFilters;
      currentPage := 1;
      totalPages := 1;
      form := EmptyForm;
      editingId := None;
      showModal := false;
      showImport := false;
    }

    /** `fetchItems` once the request has ended. */
    method ApplyFetch(outcome: Result<(seq<Item>, nat), string>) returns (notice: Notice)
      requires Valid()
      modifies this`items, this`totalPages
      ensures Valid()
      ensures outcome.Success? ==>
        items == outcome.value.0 && totalPages == Pagination.TotalPagesOf(outcome.value.1)
        && notice == Silent
      ensures outcome.Failure? ==>
        items == old(items) && totalPages == old(totalPages)
        && notice == ErrorToast("Error al cargar items")
    {
      if outcome.Success? {
        items := outcome.value.0;
        totalPages := Pagination.TotalPagesOf(outcome.value.1);
        notice := Silent;
      } else {
        notice := ErrorToast("Error al cargar items");
      }
    }

    /** `handleFilterChange`: one filter changes and the page goes back to 1. */
    method FilterChange(key: FilterKey, value: string)
      requires Valid()
      modifies this`filtros, this`currentPage
      ensures Valid()
      ensures filtros == WithFilter(old(filtros), key, value) && currentPage == 1
    {
      filtros := WithFilter(filtros, key, value);
      currentPage := 1;
    }

    /** `handleResetFilters`. */
    method ResetFilters()
      requires Valid()
      modifies this`filtros, this`currentPage
      ensures Valid()
      ensures filtros == NoFilters && currentPage == 1
    {
      filtros := NoFilters;
      currentPage := 1;
    }

    method First()
      requires Valid()
      modifies this`currentPage
      ensures Valid() && currentPage == 1
    {
      currentPage := 1;
    }

    method Prev()
      requires Valid()
      modifies this`currentPage
      ensures Valid() && currentPage == Pagination.PrevPage(old(currentPage))
      ensures currentPage <= old(currentPage)
    {
      currentPage := Pagination.PrevPage(currentPage);
    }

    method Next()
      requires Valid()
      modifies this`currentPage
      ensures Valid() && currentPage == Pagination.NextPage(old(currentPage), totalPages)
      ensures currentPage <= totalPages
    {
      currentPage := Pagination.NextPage(currentPage, totalPages);
    }

    method Last()
      requires Valid()
      modifies this`currentPage
      ensures Valid() && currentPage == totalPages
    {
      currentPage := totalPages;
    }

    /** A click on one of the page buttons of the window. */
    method GoTo(page: int)
      requires Valid() && page in Pagination.PageWindow(currentPage, totalPages)
      modifies this`currentPage
      ensures Valid() && currentPage == page && 1 <= currentPage <= totalPages
    {
      Pagination.PageWindowShape(currentPage, totalPages);
      var k :| 0 <= k < |Pagination.PageWindow(currentPage, totalPages)|
            && Pagination.PageWindow(currentPage, totalPages)[k] == page;
      currentPage := page;
    }

    /** `handleEdit`. */
    method Edit(it: Item)
      modifies this`editingId, this`form, this`showModal
      ensures editingId == Some(it.id) && form == FormOf(it) && showModal
    {
      editingId := Some(it.id);
      form := FormOf(it);
      showModal := true;
    }

    /** The 'Nuevo Item' button. */
    method OpenNew()
      modifies this`editingId, this`form, this`showModal
      ensures editingId == None && form == EmptyForm && showModal
    {
      editingId := None;
      form := EmptyForm;
      showModal := true;
    }

    /** `handleCloseModal`. */
    method CloseModal()
      modifies this`editingId, this`form, this`showModal
      ensures editingId == None && form == EmptyForm && !showModal
    {
      showModal := false;
      editingId := None;
      form := EmptyForm;
    }

    /** `handleSaveItem`; `response` is how the request ends. */
    method Save(response: Response, isoNow: string) returns (notice: Notice, request: Option<Request<Payload>>)
      requires Valid()
      modifies this`editingId, this`form, this`showModal, this`currentPage
      ensures Valid()
      ensures Validate(old(form), isoNow).Failure? ==>
        && request == None && notice == ErrorToast(Validate(old(form), isoNow).error)
        && form == old(form) && editingId == old(editingId)
        && showModal == old(showModal) && currentPage == old(currentPage)
      ensures Validate(old(form), isoNow).Success? ==>
        request == Some(SaveRequest(old(editingId), Validate(old(form), isoNow).value))
      ensures Validate(old(form), isoNow).Success? && response.Succeeded? ==>
        && notice == SuccessToast(SavedText(request.value))
        && form == EmptyForm && editingId == None && !showModal && currentPage == 1
      ensures Validate(old(form), isoNow).Success? && response.Failed? ==>
        && notice == FailureNotice(response.message, "Error al guardar item")
        && form == old(form) && editingId == old(editingId)
        && showModal == old(showModal) && currentPage == old(currentPage)
    {
      var checked := Validate(form, isoNow);
      if checked.Failure? {
        return ErrorToast(checked.error), None;
      }
      var r := SaveRequest(editingId, checked.value);
      request := Some(r);
      if response.Succeeded? {
        notice := SuccessToast(SavedText(r));
        CloseModal();
        currentPage := 1;
      } else {
        notice := FailureNotice(response.message, "Error al guardar item");
      }
    }

    /** The 'Importar Excel' button. */
    method OpenImport()
      modifies this`showImport
      ensures showImport
    {
      showImport := true;
    }

    /** `handleImportExcel`: posts the rows, reports both counts, closes the
        dialog and goes back to page 1. */
    method ImportExcel(rows: seq<Object>, accepted: nat -> bool, isoNow: string)
      returns (notice: Notice, sent: seq<ImportPayload>)
      requires Valid()
      modifies this`showImport, this`currentPage
      ensures Valid()
      ensures sent == ImportRequests(rows, Export.DatePart(isoNow))
      ensures notice == SuccessToast(ImportSummary(CountAccepted(|sent|, accepted),
                                                   |sent| - CountAccepted(|sent|, accepted)))
      ensures !showImport && currentPage == 1
    {
      var importados, errores;
      importados, errores, sent := ImportRows(rows, accepted, Export.DatePart(isoNow));
      notice := SuccessToast(ImportSummary(importados, errores));
      showImport := false;
      currentPage := 1;
    }
  }
}
