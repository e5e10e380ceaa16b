/** Report generation: the summary boxes of the PDF reports, the summary
    counts, the record-to-row mappings of the spreadsheet and PDF exports, the
    highlight of low-stock rows and the file names. Drawing and file writing
    are represented by the lists of boxes and rows they would receive. */
module Export {
  import opened Js
  import opened Wrappers
  import opened Records
  import Seqs
  import Stock

  const BoxLeft := 14
  const BoxWidth := 40
  const BoxHeight := 18
  const BoxSpacing := 12

  /** One summary box: a filled, bordered rectangle with a label and a value. */
  datatype Box = Box(x: int, y: int, width: int, height: int, caption: string, value: Cell)

  /** Where the box of the `i`-th summary entry goes: column `i % 4` of row `i / 4`. */
  function SummaryBox(startY: int, i: nat, entry: (string, Cell)): Box
  {
    Box(14 + 52 * (i % 4), startY + 30 * (i / 4), 40, 18, entry.0, entry.1)
  }

  /** Two boxes do not overlap. */
  predicate Apart(a: Box, b: Box)
  {
    a.x + a.width <= b.x || b.x + b.width <= a.x || a.y + a.height <= b.y || b.y + b.height <= a.y
  }

  /** The layout keeps the boxes apart, inside the 210-wide page between the
      left margin and its right edge, and above the coordinate returned for
      what follows. */
  lemma SummaryLayout(startY: int, n: nat, i: nat, j: nat, e: (string, Cell), f: (string, Cell))
    requires i < j < n
    ensures Apart(SummaryBox(startY, i, e), SummaryBox(startY, j, f))
    ensures 14 <= SummaryBox(startY, i, e).x && SummaryBox(startY, i, e).x + 40 <= 210
    ensures startY <= SummaryBox(startY, i, e).y
    ensures SummaryBox(startY, j, f).y + 18 < startY + 30 * (n / 4 + 1)
  {
    if i / 4 == j / 4 {
      assert i == 4 * (i / 4) + i % 4 && j == 4 * (j / 4) + j % 4;
      assert i % 4 < j % 4;
    } else {
      assert i / 4 < j / 4;
    }
    assert j / 4 <= n / 4;
  }

  /** `addSummaryBoxes`: lays the boxes out left to right, four to a row, and
      returns the y coordinate below the last row (one row further down when
      the count is a multiple of four, since the loop has already wrapped). */
  method AddSummaryBoxes(startY: int, entries: seq<(string, Cell)>) returns (boxes: seq<Box>, nextY: int)
    ensures |boxes| == |entries|
    ensures forall i | 0 <= i < |entries| :: boxes[i] == SummaryBox(startY, i, entries[i])
    ensures nextY == startY + 30 * (|entries| / 4 + 1)
  {
    var x := BoxLeft;
    var y := startY;
    boxes := [];
    var i := 0;
    while i < |entries|
      invariant 0 <= i <= |entries|
      invariant |boxes| == i
      invariant x == 14 + 52 * (i % 4)
      invariant y == startY + 30 * (i / 4)
      invariant forall k | 0 <= k < i :: boxes[k] == SummaryBox(startY, k, entries[k])
    {
      boxes := boxes + [Box(x, y, BoxWidth, BoxHeight, entries[i].0, entries[i].1)];
      x := x + BoxWidth + BoxSpacing;
      if (i + 1) % 4 == 0 {
        x := BoxLeft;
        y := y + BoxHeight + BoxSpacing;
      }
      i := i + 1;
    }
    nextY := y + BoxHeight + BoxSpacing;
  }

  // ---------------------------------------------------------------- summaries

  predicate IsActivo(it: Item) { it.estado == "activo" }
  predicate IsMantenimiento(it: Item) { it.estado == "mantenimiento" }
  predicate IsBaja(it: Item) { it.estado == "baja" }

  /** The boxes of the items report. */
  function ItemsSummary(items: seq<Item>): seq<(string, Cell)>
  {
    [ ("Total Items", Number(|items|)),
      ("Activos", Number(|Seqs.Filter(items, IsActivo)|)),
      ("Mantenimiento", Number(|Seqs.Filter(items, IsMantenimiento)|)),
      ("Baja", Number(|Seqs.Filter(items, IsBaja)|)) ]
  }

  /** The three state counts never exceed the total, and they add up to it when
      every item is in one of the three known states. */
  lemma ItemsSummaryCounts(items: seq<Item>)
    ensures var s := ItemsSummary(items);
      && s[0].1 == Number(|items|)
      && s[1].1.n + s[2].1.n + s[3].1.n <= |items|
      && ((forall it | it in items :: it.estado in {"activo", "mantenimiento", "baja"}) ==>
            s[1].1.n + s[2].1.n + s[3].1.n == |items|)
  {
    Seqs.FilterDisjoint3(items, IsActivo, IsMantenimiento, IsBaja);
  }

  /** The boxes of the consumables report; 'Stock OK' is computed as the total
      minus the low-stock count. */
  function ConsumablesSummary(cs: seq<Consumable>): seq<(string, Cell)>
  {
    var low := |Seqs.Filter(cs, Stock.IsLow)|;
    [ ("Total", Number(|cs|)),
      ("Stock OK", Number(|cs| - low)),
      ("Stock Bajo", Number(low)),
      ("Alerta", Text("⚠️")) ]
  }

  /** 'Stock Bajo' is the listing's low-stock count, 'Stock OK' is exactly the
      number of rows above their threshold, and the two make up the total. */
  lemma ConsumablesSummaryCounts(cs: seq<Consumable>)
    ensures var s := ConsumablesSummary(cs);
      && s[0].1 == Number(|cs|)
      && s[2].1 == Number(Stock.LowStockCount(cs))
      && s[1].1 == Number(|Seqs.Filter(cs, Stock.IsNormal)|)
      && s[1].1.n + s[2].1.n == |cs|
  {
    Seqs.FilterComplement(cs, Stock.IsLow, Stock.IsNormal);
  }

  predicate IsEntrada(m: Movement) { m.tipo == "entrada" }
  predicate IsSalida(m: Movement) { m.tipo == "salida" }
  predicate IsMantenimientoMov(m: Movement) { m.tipo == "mantenimiento" }
  predicate IsBajaMov(m: Movement) { m.tipo == "baja" }

  /** The boxes of the movements report. `exportarMovimientosPDF` computes a
      'baja' count it never shows, so it does not appear here. */
  function MovementsSummary(ms: seq<Movement>): seq<(string, Cell)>
  {
    [ ("Total", Number(|ms|)),
      ("Entradas", Number(|Seqs.Filter(ms, IsEntrada)|)),
      ("Salidas", Number(|Seqs.Filter(ms, IsSalida)|)),
      ("Mantenimiento", Number(|Seqs.Filter(ms, IsMantenimientoMov)|)) ]
  }

  /** Each type count is at most the total, and so are the three shown together
      with the hidden 'baja' count. */
  lemma MovementsSummaryCounts(ms: seq<Movement>)
    ensures var s := MovementsSummary(ms);
      && s[0].1 == Number(|ms|)
      && s[1].1.n + s[2].1.n + s[3].1.n + |Seqs.Filter(ms, IsBajaMov)| <= |ms|
      && [s[0].0, s[1].0, s[2].0, s[3].0] == ["Total", "Entradas", "Salidas", "Mantenimiento"]
  {
    var e, sa, ma, b := Seqs.Filter(ms, IsEntrada), Seqs.Filter(ms, IsSalida),
                        Seqs.Filter(ms, IsMantenimientoMov), Seqs.Filter(ms, IsBajaMov);
    Seqs.FilterDisjoint3(ms, IsEntrada, IsSalida, IsMantenimientoOrBaja);
    MantenimientoBajaWithin(ms);
    assert |e| + |sa| + |ma| + |b| <= |ms|;
  }

  predicate IsMantenimientoOrBaja(m: Movement) { IsMantenimientoMov(m) || IsBajaMov(m) }

  lemma {:induction false} MantenimientoBajaWithin(ms: seq<Movement>)
    ensures |Seqs.Filter(ms, IsMantenimientoMov)| + |Seqs.Filter(ms, IsBajaMov)|
            == |Seqs.Filter(ms, IsMantenimientoOrBaja)|
  {
    if ms != [] {
      MantenimientoBajaWithin(ms[1..]);
    }
  }

  // ---------------------------------------------------------------- rows

  /** A cell a reader sees something in. */
  predicate NonBlank(c: Cell) { c.Number? || c.s != "" }

  /** `S/. ${valor?.toFixed(2) || '0.00'}`; a missing amount is 0. */
  function ValorText(valor: int): string { "S/. " + FixedTwo(valor) }

  /** The amount can be read back from its text. */
  lemma ValorTextRoundTrip(valor: int)
    ensures |ValorText(valor)| >= 8 && ValorText(valor)[..4] == "S/. "
    ensures ReadFixedTwo(ValorText(valor)[4..]) == Some(valor)
  {
    FixedTwoRoundTrip(valor);
    assert ValorText(valor)[4..] == FixedTwo(valor);
  }

  const ItemsSheetColumns := ["Código", "Nombre", "Categoría", "Laboratorio", "Estado", "Valor", "Fecha de Adquisición"]
  const ItemsSheetWidths: seq<nat> := [15, 25, 15, 20, 15, 15, 20]
  const ItemsPdfHead := ["Código", "Nombre", "Categoría", "Laboratorio", "Estado", "Valor"]

  /** A row of the items spreadsheet; `localeDate` is the es-ES date formatting
      of the runtime. */
  function ItemSheetRow(it: Item, localeDate: string -> string): seq<Cell>
  {
    [ Text(it.codigo), Text(it.nombre), Text(OrDash(it.categoria)), Text(OrDash(it.laboratorio)),
      Text(it.estado), Text(ValorText(it.valor)),
      Text(if it.fechaAdquisicion != "" then localeDate(it.fechaAdquisicion) else "-") ]
  }

  /** A row of the items PDF table. */
  function ItemPdfRow(it: Item): seq<Cell>
  {
    [ Text(OrDash(it.codigo)), Text(OrDash(it.nombre)), Text(OrDash(it.categoria)),
      Text(OrDash(it.laboratorio)), Text(OrDash(Upper(it.estado))), Text(ValorText(it.valor)) ]
  }

  /** The two item exports agree: the PDF shows the spreadsheet's code, name,
      category and laboratory, or a dash where that is empty, the state in
      capitals, and the same amount, which reads back as the item's value; the
      PDF has no blank cell, and the spreadsheet writes a dash for a missing
      acquisition date. */
  lemma ItemRowsAgree(it: Item, localeDate: string -> string)
    ensures var s, p := ItemSheetRow(it, localeDate), ItemPdfRow(it);
      && |s| == |ItemsSheetColumns| && |p| == |ItemsPdfHead|
      && (forall k | 0 <= k < 4 :: p[k] == (if s[k].s == "" then Text("-") else s[k]))
      && (it.estado != "" ==> p[4].s == Upper(s[4].s))
      && Upper(p[4].s) == p[4].s
      && p[5] == s[5] && ReadFixedTwo(p[5].s[4..]) == Some(it.valor)
      && (forall k | 0 <= k < |p| :: NonBlank(p[k]))
      && (it.fechaAdquisicion == "" ==> s[6] == Text("-"))
  {
    var p := ItemPdfRow(it);
    ValorTextRoundTrip(it.valor);
    UpperIdempotent(it.estado);
    assert Upper("-") == "-";
  }

  const ConsumablesSheetColumns := ["Nombre", "Categoría", "Stock Actual", "Stock Mínimo", "Unidad", "Estado"]
  const ConsumablesSheetWidths: seq<nat> := [25, 15, 15, 15, 15, 15]
  const ConsumablesPdfHead := ["Nombre", "Categoría", "Stock Actual", "Stock Mín.", "Unidad", "Estado"]

  /** A row of the consumables spreadsheet. */
  function ConsumableSheetRow(c: Consumable): seq<Cell>
  {
    [ Text(c.nombre), Text(OrDash(c.categoria)), Number(c.stock), Number(c.stockMinimo),
      Text(c.unidadMedida), Text(if Stock.IsLow(c) then "BAJO" else "OK") ]
  }

  /** A row of the consumables PDF table; `stock || 0` is the stock itself,
      since a missing stock is already 0. */
  function ConsumablePdfRow(c: Consumable): seq<Cell>
  {
    [ Text(OrDash(c.nombre)), Text(OrDash(c.categoria)), Number(c.stock), Number(c.stockMinimo),
      Text(OrDash(c.unidadMedida)), Text(if Stock.IsLow(c) then "⚠️ CRÍTICO" else "✓ NORMAL") ]
  }

  /** `didDrawCell`: whether a drawn cell of row `rowIndex` is painted red. */
  function FillsCell(cs: seq<Consumable>, rowIndex: int): bool
    requires rowIndex < |cs|
  {
    rowIndex >= 0 && Stock.IsLow(cs[rowIndex])
  }

  /** The status column of both exports, the red fill of the PDF row and the
      listing's row colour all mark the same rows: those with low stock. */
  lemma ConsumableStatusAgrees(cs: seq<Consumable>, i: int)
    requires 0 <= i < |cs|
    ensures var c := cs[i];
      && (ConsumableSheetRow(c)[5] == Text("BAJO") <==> Stock.IsLow(c))
      && (ConsumableSheetRow(c)[5] == Text("OK") <==> !Stock.IsLow(c))
      && (ConsumablePdfRow(c)[5] == Text("⚠️ CRÍTICO") <==> Stock.IsLow(c))
      && (FillsCell(cs, i) <==> Stock.IsLow(c))
      && (Stock.RowClass(c) != "" <==> Stock.IsLow(c) || Stock.IsCritical(c))
      && ConsumablePdfRow(c)[2..4] == ConsumableSheetRow(c)[2..4] == [Number(c.stock), Number(c.stockMinimo)]
  {
  }

  /** The PDF labels every low row 'CRÍTICO', including rows the listing shows
      as merely low: stock 4 against a threshold of 5. */
  lemma PdfCriticoIncludesLow()
    ensures var c := Consumable(1, "Guantes", "", 1, "", 4, 5, "caja");
      ConsumablePdfRow(c)[5] == Text("⚠️ CRÍTICO") && Stock.Classify(c) == Stock.Low
  {
  }

  const MovementsSheetColumns := ["Item/Consumible", "Tipo", "Cantidad", "Usuario", "Observaciones", "Fecha", "Hora"]
  const MovementsSheetWidths: seq<nat> := [25, 15, 12, 20, 30, 15, 15]
  const MovementsPdfHead := ["Item/Consumible", "Tipo", "Cant.", "Usuario", "Observaciones", "Fecha"]

  /** A row of the movements spreadsheet; `localeDate` and `localeTime` are the
      es-ES formatting of the runtime. */
  function MovementSheetRow(m: Movement, localeDate: string -> string, localeTime: string -> string): seq<Cell>
  {
    [ Text(MovementName(m)), Text(m.tipo), Number(m.cantidad), Text(OrDash(m.usuario)),
      Text(OrDash(m.observaciones)), Text(localeDate(m.createdAt)), Text(localeTime(m.createdAt)) ]
  }

  /** A row of the movements PDF table; `cantidad || '-'` shows a dash for 0. */
  function MovementPdfRow(m: Movement, localeDate: string -> string): seq<Cell>
  {
    [ Text(MovementName(m)), Text(OrDash(Upper(m.tipo))),
      if m.cantidad != 0 then Number(m.cantidad) else Text("-"),
      Text(OrDash(m.usuario)), Text(OrDash(m.observaciones)), Text(localeDate(m.createdAt)) ]
  }

  /** The two movement exports agree on the name, user, notes and date; the
      PDF shows the type in capitals and a dash instead of a zero quantity. */
  lemma MovementRowsAgree(m: Movement, localeDate: string -> string, localeTime: string -> string)
    ensures var s, p := MovementSheetRow(m, localeDate, localeTime), MovementPdfRow(m, localeDate);
      && |s| == |MovementsSheetColumns| && |p| == |MovementsPdfHead|
      && p[0] == s[0] && p[3..6] == s[3..6]
      && (m.tipo != "" ==> p[1].s == Upper(s[1].s)) && Upper(p[1].s) == p[1].s
      && (p[2] == Text("-") <==> s[2] == Number(0))
      && (s[2] != Number(0) ==> p[2] == s[2])
      && (forall k | 0 <= k < 5 :: NonBlank(p[k]))
  {
    UpperIdempotent(m.tipo);
    assert Upper("-") == "-";
  }

  // ---------------------------------------------------------------- files

  /** `iso.split('T')[0]`: the date part of an ISO timestamp. */
  function DatePart(iso: string): string
  {
    Split(iso, 'T')[0]
  }

  /** For a timestamp `date + 'T' + time` the date part is `date`, and it never
      holds a 'T'. */
  lemma DatePartOfTimestamp(date: string, time: string)
    requires 'T' !in date
    ensures DatePart(date + "T" + time) == date
  {
    SplitFirst(date, 'T', time);
  }

  lemma DatePartHasNoSeparator(iso: string)
    ensures 'T' !in DatePart(iso)
  {
    SplitJoin(iso, 'T');
  }

  /** `Reporte_<entity>_<date>.<ext>`. */
  function ReportFileName(entity: string, isoNow: string, ext: string): string
  {
    "Reporte_" + entity + "_" + DatePart(isoNow) + "." + ext
  }

  /** The exports of one day get the same name, and two names are equal only on
      the same date. */
  lemma ReportFileNameDeterminedByDate(entity: string, iso1: string, iso2: string, ext: string)
    ensures ReportFileName(entity, iso1, ext) == ReportFileName(entity, iso2, ext)
            <==> DatePart(iso1) == DatePart(iso2)
  {
    var d1, d2 := DatePart(iso1), DatePart(iso2);
    var pre := "Reporte_" + entity + "_";
    if ReportFileName(entity, iso1, ext) == ReportFileName(entity, iso2, ext) {
      var n1, n2 := ReportFileName(entity, iso1, ext), ReportFileName(entity, iso2, ext);
      var t := "." + ext;
      assert n1 == pre + (d1 + t);
      assert n2 == pre + (d2 + t);
      assert n1[|pre|..] == d1 + t;
      assert n2[|pre|..] == d2 + t;
      SuffixDetermines(d1, d2, t);
    }
  }

  lemma SuffixDetermines(a: string, b: string, t: string)
    requires a + t == b + t
    ensures a == b
  {
    assert |a| == |b|;
    assert forall k | 0 <= k < |a| :: a[k] == (a + t)[k] == (b + t)[k] == b[k];
  }

  // ---------------------------------------------------------------- documents

  /** A one-sheet workbook as `writeFile` receives it. */
  datatype Workbook = Workbook(sheetName: string, columns: seq<string>, widths: seq<nat>,
                               rows: seq<seq<Cell>>, fileName: string)

  /** Every column has a width and every row a cell per column. */
  predicate WellFormed(w: Workbook)
  {
    |w.columns| == |w.widths| && forall r | r in w.rows :: |r| == |w.columns|
  }

  /** `exportarItemsExcel`: one row per item, in order. */
  function ItemsWorkbook(items: seq<Item>, isoNow: string, localeDate: string -> string): (w: Workbook)
    ensures WellFormed(w) && |w.rows| == |items|
    ensures forall i | 0 <= i < |items| :: w.rows[i] == ItemSheetRow(items[i], localeDate)
    ensures w.sheetName == "Items" && w.fileName == ReportFileName("Items", isoNow, "xlsx")
  {
    Workbook("Items", ItemsSheetColumns, ItemsSheetWidths,
             Seqs.Map(items, (it: Item) => ItemSheetRow(it, localeDate)),
             ReportFileName("Items", isoNow, "xlsx"))
  }

  /** `exportarConsumiblesExcel`. */
  function ConsumablesWorkbook(cs: seq<Consumable>, isoNow: string): (w: Workbook)
    ensures WellFormed(w) && |w.rows| == |cs|
    ensures forall i | 0 <= i < |cs| :: w.rows[i] == ConsumableSheetRow(cs[i])
    ensures w.sheetName == "Consumibles" && w.fileName == ReportFileName("Consumibles", isoNow, "xlsx")
  {
    Workbook("Consumibles", ConsumablesSheetColumns, ConsumablesSheetWidths,
             Seqs.Map(cs, ConsumableSheetRow),
             ReportFileName("Consumibles", isoNow, "xlsx"))
  }

  /** `exportarMovimientosExcel`. */
  function MovementsWorkbook(ms: seq<Movement>, isoNow: string,
                             localeDate: string -> string, localeTime: string -> string): (w: Workbook)
    ensures WellFormed(w) && |w.rows| == |ms|
    ensures forall i | 0 <= i < |ms| :: w.rows[i] == MovementSheetRow(ms[i], localeDate, localeTime)
    ensures w.sheetName == "Movimientos" && w.fileName == ReportFileName("Movimientos", isoNow, "xlsx")
  {
    Workbook("Movimientos", MovementsSheetColumns, MovementsSheetWidths,
             Seqs.Map(ms, (m: Movement) => MovementSheetRow(m, localeDate, localeTime)),
             ReportFileName("Movimientos", isoNow, "xlsx"))
  }

  /** What a PDF report draws: the header title, the two information lines,
      the summary boxes, the table (its top, head and body) and the rows the
      table paints red, and the name it is saved under. */
  datatype PdfReport = PdfReport(title: string, info: seq<string>, boxes: seq<Box>, tableStartY: int,
                                 head: seq<string>, body: seq<seq<Cell>>, highlighted: set<int>,
                                 fileName: string)

  /** The two lines under the header; `today` is the es-ES date of the runtime. */
  function InfoLines(today: string): seq<string>
  {
    ["Institución: Instituto Tecnológico", "Fecha de Generación: " + today]
  }

  /** The page layout shared by the three PDF reports: four boxes on one row
      starting at y = 52, and the table starting below them. */
  predicate LaidOut(doc: PdfReport, summary: seq<(string, Cell)>)
  {
    && |summary| == 4 && |doc.boxes| == 4
    && (forall i | 0 <= i < 4 :: doc.boxes[i] == SummaryBox(52, i, summary[i]))
    && doc.tableStartY == 117
    && (forall i | 0 <= i < 4 :: doc.boxes[i].y + doc.boxes[i].height < doc.tableStartY)
    && (forall r | r in doc.body :: |r| == |doc.head|)
  }

  /** Four boxes placed from y = 52 leave the table at 117, below all of them. */
  lemma FourBoxesLayOut(doc: PdfReport, summary: seq<(string, Cell)>, summaryEnd: int)
    requires |summary| == 4 && |doc.boxes| == 4
    requires forall i | 0 <= i < 4 :: doc.boxes[i] == SummaryBox(52, i, summary[i])
    requires summaryEnd == 52 + 30 * (|summary| / 4 + 1) && doc.tableStartY == summaryEnd + 5
    requires forall r | r in doc.body :: |r| == |doc.head|
    ensures LaidOut(doc, summary)
  {
  }

  /** `exportarItemsPDF`. */
  method ItemsPdf(items: seq<Item>, isoNow: string, today: string) returns (doc: PdfReport)
    ensures doc.title == "📦 REPORTE DE ITEMS" && doc.info == InfoLines(today)
    ensures LaidOut(doc, ItemsSummary(items))
    ensures |doc.body| == |items| && forall i | 0 <= i < |items| :: doc.body[i] == ItemPdfRow(items[i])
    ensures doc.highlighted == {}
    ensures doc.fileName == ReportFileName("Items", isoNow, "pdf")
  {
    var summary := ItemsSummary(items);
    var boxes, summaryEnd := AddSummaryBoxes(52, summary);
    doc := PdfReport("📦 REPORTE DE ITEMS", InfoLines(today), boxes, summaryEnd + 5,
                     ItemsPdfHead, Seqs.Map(items, ItemPdfRow), {},
                     ReportFileName("Items", isoNow, "pdf"));
    FourBoxesLayOut(doc, summary, summaryEnd);
  }

  /** `exportarConsumiblesPDF`; the red rows are those `didDrawCell` fills. */
  method ConsumablesPdf(cs: seq<Consumable>, isoNow: string, today: string) returns (doc: PdfReport)
    ensures doc.title == "📫 REPORTE DE CONSUMIBLES" && doc.info == InfoLines(today)
    ensures LaidOut(doc, ConsumablesSummary(cs))
    ensures |doc.body| == |cs| && forall i | 0 <= i < |cs| :: doc.body[i] == ConsumablePdfRow(cs[i])
    ensures forall i :: i in doc.highlighted <==> 0 <= i < |cs| && Stock.IsLow(cs[i])
    ensures doc.fileName == ReportFileName("Consumibles", isoNow, "pdf")
  {
    var summary := ConsumablesSummary(cs);
    var boxes, summaryEnd := AddSummaryBoxes(52, summary);
    var painted := set i | 0 <= i < |cs| && FillsCell(cs, i);
    assert forall i :: i in painted <==> 0 <= i < |cs| && Stock.IsLow(cs[i]);
    var body := Seqs.Map(cs, ConsumablePdfRow);
    assert forall r | r in body :: |r| == |ConsumablesPdfHead|;
    doc := PdfReport("📫 REPORTE DE CONSUMIBLES", InfoLines(today), boxes, summaryEnd + 5,
                     ConsumablesPdfHead, body, painted,
                     ReportFileName("Consumibles", isoNow, "pdf"));
    FourBoxesLayOut(doc, summary, summaryEnd);
  }

  /** `exportarMovimientosPDF`. */
  method MovementsPdf(ms: seq<Movement>, isoNow: string, today: string, localeDate: string -> string)
    returns (doc: PdfReport)
    ensures doc.title == "🔄 REPORTE DE MOVIMIENTOS" && doc.info == InfoLines(today)
    ensures LaidOut(doc, MovementsSummary(ms))
    ensures |doc.body| == |ms| && forall i | 0 <= i < |ms| :: doc.body[i] == MovementPdfRow(ms[i], localeDate)
    ensures doc.highlighted == {}
    ensures doc.fileName == ReportFileName("Movimientos", isoNow, "pdf")
  {
    var summary := MovementsSummary(ms);
    var boxes, summaryEnd := AddSummaryBoxes(52, summary);
    doc := PdfReport("🔄 REPORTE DE MOVIMIENTOS", InfoLines(today), boxes, summaryEnd + 5,
                     MovementsPdfHead, Seqs.Map(ms, (m: Movement) => MovementPdfRow(m, localeDate)), {},
                     ReportFileName("Movimientos", isoNow, "pdf"));
    FourBoxesLayOut(doc, summary, summaryEnd);
  }
}
