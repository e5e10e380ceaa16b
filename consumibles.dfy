/** The consumables screen: its filters and page, the fetched listing with the
    client-side stock filter and the low-stock banner, and the edit modal with
    the validation and conversion done before saving. */
module Consumibles {
  import opened Wrappers
  import opened Js
  import opened Records
  import opened Gateway
  import Stock
  import Pagination

  const PerPage := 10

  /** `filtros`: the search text, the stock status and the category id. */
  datatype Filters = Filters(search: string, stockStatus: string, categoriaId: string)

  const NoFilters := Filters("", "", "")

  datatype FilterKey = Search | StockStatus | CategoriaId

  /** `{ ...filtros, [key]: value }`. */
  function WithFilter(f: Filters, key: FilterKey, value: string): (r: Filters)
    ensures key == Search ==> r == f.(search := value)
    ensures key == StockStatus ==> r == f.(stockStatus := value)
    ensures key == CategoriaId ==> r == f.(categoriaId := value)
  {
    match key
    case Search => f.(search := value)
    case StockStatus => f.(stockStatus := value)
    case CategoriaId => f.(categoriaId := value)
  }

  /** Changing one filter leaves the other two as they were. */
  lemma WithFilterChangesOneKey(f: Filters, key: FilterKey, value: string)
    ensures var r := WithFilter(f, key, value);
      && (key != Search ==> r.search == f.search)
      && (key != StockStatus ==> r.stockStatus == f.stockStatus)
      && (key != CategoriaId ==> r.categoriaId == f.categoriaId)
      && WithFilter(r, key, value) == r
  {
  }

  /** The params object `fetchConsumibles` builds and hands to `request`:
      search and category only when set. */
  datatype Params = Params(page: int, perPage: int, search: Option<string>, categoriaId: Option<string>)

  function FetchParams(f: Filters, page: int): (p: Params)
    ensures p.page == page && p.perPage == PerPage
    ensures p.search.Some? <==> f.search != ""
    ensures p.search.Some? ==> p.search.value == f.search
    ensures p.categoriaId.Some? <==> f.categoriaId != ""
    ensures p.categoriaId.Some? ==> p.categoriaId.value == f.categoriaId
  {
    Params(page, PerPage,
           if f.search != "" then Some(f.search) else None,
           if f.categoriaId != "" then Some(f.categoriaId) else None)
  }

  /** The modal's form. The category, stock and minimum hold whatever the
      inputs or an edited record put there: a string or a number. */
  datatype Form = Form(nombre: string, descripcion: string, categoriaId: Value,
                       stock: Value, stockMinimo: Value, unidadMedida: string)

  const EmptyForm := Form("", "", Str(""), Str(""), Str(""), "unidad")

  /** The body sent on save. */
  datatype Payload = Payload(nombre: string, descripcion: string, categoriaId: IntOrNaN,
                             stock: int, stockMinimo: int, unidadMedida: string, carreraId: int)

  /** `handleSaveConsumible`'s checks, in order, and `dataToSend`. */
  function Validate(f: Form): (r: Result<Payload, string>)
    ensures r.Failure? <==> f.nombre == "" || !Truthy(f.categoriaId)
    ensures f.nombre == "" ==> r == Failure("El nombre es requerido")
    ensures f.nombre != "" && !Truthy(f.categoriaId) ==> r == Failure("Debe seleccionar una categoría")
    ensures r.Success? ==>
      && r.value.nombre == f.nombre && r.value.descripcion == f.descripcion
      && r.value.categoriaId == ParseIntValue(f.categoriaId)
      && r.value.unidadMedida == f.unidadMedida && r.value.carreraId == 1
      && (ParseIntValue(f.stock).NaN? ==> r.value.stock == 0)
      && (ParseIntValue(f.stock).Int? ==> r.value.stock == ParseIntValue(f.stock).i)
      && (ParseIntValue(f.stockMinimo).NaN? ==> r.value.stockMinimo == 0)
      && (ParseIntValue(f.stockMinimo).Int? ==> r.value.stockMinimo == ParseIntValue(f.stockMinimo).i)
  {
    if f.nombre == "" then Failure("El nombre es requerido")
    else if !Truthy(f.categoriaId) then Failure("Debe seleccionar una categoría")
    else Success(Payload(f.nombre, f.descripcion, ParseIntValue(f.categoriaId),
                         OrZero(ParseIntValue(f.stock)), OrZero(ParseIntValue(f.stockMinimo)),
                         f.unidadMedida, 1))
  }

  /** Typed digits are sent as their number. */
  lemma TypedStockIsSent(f: Form, n: int)
    requires Validate(f).Success? && f.stock == Str(IntToString(n))
    ensures Validate(f).value.stock == n
  {
    ParseIntOfIntToString(n);
  }

  /** `handleEdit`'s form: missing text becomes '' and a missing unit 'unidad'. */
  function FormOf(c: Consumable): Form
  {
    Form(c.nombre, c.descripcion, NumberOrEmpty(c.categoriaId), NumberOrEmpty(c.stock),
         NumberOrEmpty(c.stockMinimo), if c.unidadMedida != "" then c.unidadMedida else "unidad")
  }

  /** Saving an edited consumable unchanged sends its own values back, the unit
      defaulting to 'unidad'; it is rejected only for an empty name or for
      category 0, which the form cannot tell from no category. */
  lemma EditSaveRoundTrip(c: Consumable)
    ensures Validate(FormOf(c)).Success? <==> c.nombre != "" && c.categoriaId != 0
    ensures Validate(FormOf(c)).Success? ==>
      var p := Validate(FormOf(c)).value;
      && p.nombre == c.nombre && p.descripcion == c.descripcion
      && p.categoriaId == Int(c.categoriaId)
      && p.stock == c.stock && p.stockMinimo == c.stockMinimo
      && p.unidadMedida == (if c.unidadMedida != "" then c.unidadMedida else "unidad")
  {
    var f := FormOf(c);
    assert Truthy(f.categoriaId) <==> c.categoriaId != 0;
  }

  function SavedText(r: Request<Payload>): string
  {
    if r.Put? then "Consumible actualizado exitosamente" else "Consumible creado exitosamente"
  }

  /** The banner above the listing, shown only with some low-stock row. */
  function LowStockBanner(cs: seq<Consumable>): (b: Option<string>)
    ensures b.Some? <==> exists k | 0 <= k < |cs| :: Stock.IsLow(cs[k])
    ensures b.Some? ==> b.value == "⚠️ " + IntToString(Stock.LowStockCount(cs)) + " consumibles con stock bajo"
  {
    Stock.LowStockCountMeaning(cs);
    var n := Stock.LowStockCount(cs);
    if n > 0 then Some("⚠️ " + IntToString(n) + " consumibles con stock bajo") else None
  }

  /** The screen's state. */
  class ConsumiblesPage {
    var consumibles: seq<Consumable>
    var filtros: Filters
    var currentPage: int
    var totalPages: int
    var form: Form
    var editingId: Option<int>
    var showModal: bool

    /** The page and the page count are at least 1. */
    predicate Valid()
      reads this
    {
      currentPage >= 1 && totalPages >= 1
    }

    constructor ()
      ensures Valid()
      ensures consumibles == [] && filtros == NoFilters && currentPage == 1 && totalPages == 1
      ensures form == EmptyForm && editingId == None && !showModal
    {
      consumibles := [];
      filtros := NoFilters;
      currentPage := 1;
      totalPages := 1;
      form := EmptyForm;
      editingId := None;
      showModal := false;
    }

    /** `fetchConsumibles` once the request has ended: on success the page is
        stock-filtered and the page count taken, on failure a toast and no
        change. */
    method ApplyFetch(outcome: Result<(seq<Consumable>, nat), string>) returns (notice: Notice)
      requires Valid()
      modifies this`consumibles, this`totalPages
      ensures Valid()
      ensures outcome.Success? ==>
        && consumibles == Stock.ApplyStockStatus(outcome.value.0, filtros.stockStatus)
        && totalPages == Pagination.TotalPagesOf(outcome.value.1)
        && notice == Silent
      ensures outcome.Failure? ==>
        consumibles == old(consumibles) && totalPages == old(totalPages)
        && notice == ErrorToast("Error al cargar consumibles")
    {
      if outcome.Success? {
        consumibles := Stock.ApplyStockStatus(outcome.value.0, filtros.stockStatus);
        totalPages := Pagination.TotalPagesOf(outcome.value.1);
        notice := Silent;
      } else {
        notice := ErrorToast("Error al cargar consumibles");
      }
    }

    /** `handleFilterChange`: one filter changes and the page goes back to 1. */
    method FilterChange(key: FilterKey, value: string)
      requires Valid()
      modifies this`filtros, this`currentPage
      ensures Valid()
      ensures filtros == WithFilter(old(filtros), key, value) && currentPage == 1
    {
      filtros := WithFilter(filtros, key, value);
      currentPage := 1;
    }

    /** `handleResetFilters`. */
    method ResetFilters()
      requires Valid()
      modifies this`filtros, this`currentPage
      ensures Valid()
      ensures filtros == NoFilters && currentPage == 1
    {
      filtros := NoFilters;
      currentPage := 1;
    }

    method First()
      requires Valid()
      modifies this`currentPage
      ensures Valid() && currentPage == 1
    {
      currentPage := 1;
    }

    method Prev()
      requires Valid()
      modifies this`currentPage
      ensures Valid() && currentPage == Pagination.PrevPage(old(currentPage))
      ensures currentPage <= old(currentPage)
    {
      currentPage := Pagination.PrevPage(currentPage);
    }

    method Next()
      requires Valid()
      modifies this`currentPage
      ensures Valid() && currentPage == Pagination.NextPage(old(currentPage), totalPages)
      ensures currentPage <= totalPages
    {
      currentPage := Pagination.NextPage(currentPage, totalPages);
    }

    method Last()
      requires Valid()
      modifies this`currentPage
      ensures Valid() && currentPage == totalPages
    {
      currentPage := totalPages;
    }

    /** A click on one of the page buttons of the window. */
    method GoTo(page: int)
      requires Valid() && page in Pagination.PageWindow(currentPage, totalPages)
      modifies this`currentPage
      ensures Valid() && currentPage == page && 1 <= currentPage <= totalPages
    {
      Pagination.PageWindowShape(currentPage, totalPages);
      var k :| 0 <= k < |Pagination.PageWindow(currentPage, totalPages)|
            && Pagination.PageWindow(currentPage, totalPages)[k] == page;
      currentPage := page;
    }

    /** `handleEdit`. */
    method Edit(c: Consumable)
      modifies this`editingId, this`form, this`showModal
      ensures editingId == Some(c.id) && form == FormOf(c) && showModal
    {
      editingId := Some(c.id);
      form := FormOf(c);
      showModal := true;
    }

    /** The 'Nuevo Consumible' button. */
    method OpenNew()
      modifies this`editingId, this`form, this`showModal
      ensures editingId == None && form == EmptyForm && showModal
    {
      editingId := None;
      form := EmptyForm;
      showModal := true;
    }

    /** `handleCloseModal`. */
    method CloseModal()
      modifies this`editingId, this`form, this`showModal
      ensures editingId == None && form == EmptyForm && !showModal
    {
      showModal := false;
      editingId := None;
      form := EmptyForm;
    }

    /** `handleSaveConsumible`; `response` is how the request ends. On success
        the modal closes and the page goes back to 1 (the re-fetch that follows
        is `ApplyFetch`). */
    method Save(response: Response) returns (notice: Notice, request: Option<Request<Payload>>)
      requires Valid()
      modifies this`editingId, this`form, this`showModal, this`currentPage
      ensures Valid()
      ensures Validate(old(form)).Failure? ==>
        && request == None && notice == ErrorToast(Validate(old(form)).error)
        && form == old(form) && editingId == old(editingId)
        && showModal == old(showModal) && currentPage == old(currentPage)
      ensures Validate(old(form)).Success? ==>
        request == Some(SaveRequest(old(editingId), Validate(old(form)).value))
      ensures Validate(old(form)).Success? && response.Succeeded? ==>
        && notice == SuccessToast(SavedText(request.value))
        && form == EmptyForm && editingId == None && !showModal && currentPage == 1
      ensures Validate(old(form)).Success? && response.Failed? ==>
        && notice == FailureNotice(response.message, "Error al guardar consumible")
        && form == old(form) && editingId == old(editingId)
        && showModal == old(showModal) && currentPage == old(currentPage)
    {
      var checked := Validate(form);
      if checked.Failure? {
        return ErrorToast(checked.error), None;
      }
      var r := SaveRequest(editingId, checked.value);
      request := Some(r);
      if response.Succeeded? {
        notice := SuccessToast(SavedText(r));
        CloseModal();
        currentPage := 1;
      } else {
        notice := FailureNotice(response.message, "Error al guardar consumible");
      }
    }
  }
}
