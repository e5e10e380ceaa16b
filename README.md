# Inventory console logic, modelled in Dafny

This project models the client-side logic of a React console for a school's lab inventory. The console covers equipment items, consumables with stock thresholds, stock movements and users, and exports reports to spreadsheets and PDFs. The model covers:

- the stock-status rules shared by the consumables listing, its filter, its banner and the exports;
- the report exporters: the summary counts, the summary-box layout loop, the record-to-row mappings, the low-stock highlight and the file names;
- the listing pages:
  - filter and pagination state, as classes whose methods update fields;
  - the save validations and the payloads they build;
  - the edit and close handlers;
  - the spreadsheet batch import;
- the import dialog's state machine over file, preview and error;
- the navigation bar's initials;
- the settings page: its password-change prompt chain and its storage writes.

How the model represents the outside world:

- **Requests and library results.** Whether a request succeeds, the rows a spreadsheet parses to, the answers typed into prompts and the browser storage are all parameters or fields. A request outcome is a `Gateway.Response`. In a batch import, `accepted: nat -> bool` says whether the k-th request sent succeeds.
- **Dates.** Date and time formatting are function parameters or opaque strings.
- **Absent fields.** A text field the API sends as `null` is `""` and a numeric one is `0`. The console mostly treats both alike: they are falsy, `x || '-'` replaces both, and in a comparison `null` counts as 0. Two cases differ, and both are listed under "## Left out": the badges, where `String(null)` is 'null', and a key missing from the record altogether.
- **Amounts.** An item's `valor` is taken to be a JSON number, as the exporters' `valor?.toFixed(2)` requires. The model holds it exactly, in hundredths, and `toFixed(2)` is modelled on those hundredths (`Js.FixedTwo`). In the item form the amount input holds either typed text or the edited item's number (`Inventario.Amount`).

Modules:

- `Wrappers`: `Option` and `Result`.
- `Js`: the JavaScript built-ins the logic relies on — truthiness, `parseInt`, `String(n)`, `toUpperCase`, `split`/`join`, `x || d` and property lookup.
- `Seqs`: `filter` and `map`, with their lemmas.
- `Gateway`: request outcomes and toasts.
- `Records`: the API records and the `'-'` placeholders.
- `Stock`, `Pagination`, `Export`.
- `Consumibles`, `Inventario`, `Movimientos`, `Usuarios`, `ImportExcel`, `Navbar`, `Configuracion`.

Three behaviours of the code worth knowing:

- **Critical stock.** `stock <= stock_minimo * 0.5` is critical, so stock 5 against a threshold of 10 is CRITICAL, since 5 <= 10 * 0.5 (`Stock.ClassifyExamples`).
- **PDF footer.** `addFooter` runs once, after the table is drawn, so only the last page of a report has a footer.
- **Malformed import rows.** A row without `codigo` or `nombre` is skipped. It counts neither as imported nor as an error (`Inventario.ImportRows`).

## Model

| member | source | states |
|---|---|---|
| Stock.CriticalIsHalfThreshold | src/pages/Consumibles/Consumibles.jsx:255 | over integers, `2*stock <= min` is exactly the floating test `stock <= min*0.5` |
| Stock.RowClass | src/pages/Consumibles/Consumibles.jsx:254-257 | via `Stock.Classify`, which tests `Stock.IsCritical` before `Stock.IsLow`: 'table-danger' iff critical, 'table-warning' iff low and not critical, '' iff neither; the critical test takes precedence |
| Stock.Badge | src/pages/Consumibles/Consumibles.jsx:263-270 | the badge is exactly ('danger', '🔴 CRÍTICO') iff critical, ('warning', '⚠️ BAJO') iff low and not critical, ('success', '🟢 OK') iff neither |
| Stock.ClassifyWithThreshold | src/pages/Consumibles/Consumibles.jsx:254-255 | about `Stock.Classify`, `Stock.IsLow` and `Stock.IsCritical`: with a non-negative threshold critical implies low, and OK holds exactly when stock is above the threshold |
| Stock.CriticalNotLowWithNegativeThreshold | src/pages/Consumibles/Consumibles.jsx:254-255 | about `Stock.Classify`: with a negative threshold a row can be critical without being low |
| Stock.ClassifyExamples | src/pages/Consumibles/Consumibles.jsx:254-255 | concrete classifications at the boundaries, including (5, 10) as critical |
| Stock.ApplyStockStatus | src/pages/Consumibles/Consumibles.jsx:52-63 | the result is an order-preserving subsequence of the fetched page; 'bajo', 'critico' and 'normal' keep exactly the low, critical and above-threshold rows; any other status keeps the page unchanged |
| Stock.BajoNormalPartition | src/pages/Consumibles/Consumibles.jsx:55-61 | the 'bajo' and 'normal' results split the page: their sizes add up and their multisets join to the page's |
| Stock.CriticoWithinBajo | src/pages/Consumibles/Consumibles.jsx:56-58 | for non-negative thresholds the 'critico' result is a subsequence of the 'bajo' result |
| Stock.LowStockCountMeaning | src/pages/Consumibles/Consumibles.jsx:160 | about `Stock.LowStockCount`: the counter is positive iff some row is low, and low plus above-threshold rows are all the rows |
| Stock.LowStockCountAfterFilter | src/pages/Consumibles/Consumibles.jsx:160 | about `Stock.LowStockCount` after `Stock.ApplyStockStatus`: after the 'bajo' filter every row counts, after 'normal' none does |
| Pagination.TotalPagesOf | src/pages/Consumibles/Consumibles.jsx:64 | `last_page || 1` is at least 1 and is the server's count when that is positive |
| Pagination.Pages | src/pages/Consumibles/Consumibles.jsx:309 | `Array.from` gives the pages 1..total in order |
| Pagination.ControlsStayInRange | src/pages/Consumibles/Consumibles.jsx:300-329 | about `Pagination.PrevPage` and `Pagination.NextPage`: from a page in [1, total] Prev and Next stay in range and move by one except at the ends (the same handlers are at src/pages/Inventario/Inventario.jsx:347-376) |
| Pagination.DisabledControlsAreNoOps | src/pages/Inventario/Inventario.jsx:347-376 | about `Pagination.PrevPage` and `Pagination.NextPage`: the controls disabled on the first and last page would not change the page |
| Pagination.PageWindowShape | src/pages/Inventario/Inventario.jsx:356-367 | about `Pagination.PageWindow` (over `Pagination.Slice` of `Pagination.Pages`): the window has at most 3 consecutive existing pages; for 1 <= c <= total it is max(1,c-1)..min(total,c+1) and contains c |
| Export.AddSummaryBoxes | src/services/export.js:48-91 | the loop against `Export.SummaryBox`: box i is at x = 14 + 52·(i mod 4), y = startY + 30·(i div 4), 40×18; the result is startY + 30·(n div 4 + 1) |
| Export.SummaryLayout | src/services/export.js:57-88 | about `Export.SummaryBox`: boxes never overlap, lie between the margin 14 and the page edge 210, and lie above the returned y |
| Export.ItemsSummaryCounts | src/services/export.js:134-143 | about `Export.ItemsSummary`: Activos + Mantenimiento + Baja <= Total Items = the item count, with equality when every state is one of the three |
| Export.ConsumablesSummaryCounts | src/services/export.js:226-234 | about `Export.ConsumablesSummary`: Stock Bajo is the listing's low-stock count, Stock OK is the above-threshold count, and they add up to Total |
| Export.MovementsSummaryCounts | src/services/export.js:321-331 | about `Export.MovementsSummary`: the boxes are Total, Entradas, Salidas, Mantenimiento; the three type counts plus the hidden 'baja' count are at most Total |
| Export.ValorTextRoundTrip | src/services/export.js:100 | about `Export.ValorText`: the amount text is `S/. ` followed by a two-decimal number that reads back as the item's value |
| Export.ItemRowsAgree | src/services/export.js:94-102 | about `Export.ItemSheetRow` and `Export.ItemPdfRow`: items sheet has 7 cells and PDF 6; the PDF shows the sheet's code, name, category and laboratory or '-' if empty, the state in capitals and the same amount; no PDF cell is blank; a missing date is '-' |
| Export.ConsumableStatusAgrees | src/services/export.js:190-197 | about `Export.ConsumableSheetRow`, `Export.ConsumablePdfRow` and `Export.FillsCell`: 'BAJO' in the sheet, '⚠️ CRÍTICO' in the PDF, and the red fill of `didDrawCell` mark exactly the low rows, and the listing colours exactly the low or critical rows (the two differ only for a negative threshold); both exports show the same stock numbers |
| Export.PdfCriticoIncludesLow | src/services/export.js:243 | about `Export.ConsumablePdfRow`: the PDF labels 'CRÍTICO' a row the listing shows only as low |
| Export.MovementRowsAgree | src/services/export.js:283-291 | about `Export.MovementSheetRow` and `Export.MovementPdfRow`: sheet 7 cells, PDF 6; they agree on name, user, notes and date; the PDF shows the type in capitals and '-' exactly for a zero quantity |
| Export.DatePartOfTimestamp | src/services/export.js:119 | about `Export.DatePart`: `iso.split('T')[0]` of `date + 'T' + time` is `date` |
| Export.DatePartHasNoSeparator | src/services/export.js:119 | about `Export.DatePart`: the date part never holds a 'T' |
| Export.ReportFileNameDeterminedByDate | src/services/export.js:186 | about `Export.ReportFileName`: two report names of the same entity and extension are equal iff their dates are |
| Export.ItemsWorkbook | src/services/export.js:93-120 | one row per item in order, 7 columns and 7 widths, sheet 'Items', file `Reporte_Items_<date>.xlsx` |
| Export.ConsumablesWorkbook | src/services/export.js:189-212 | one row per consumable in order, 6 columns and widths, sheet 'Consumibles', file name pattern |
| Export.MovementsWorkbook | src/services/export.js:282-307 | one row per movement in order, 7 columns and widths, sheet 'Movimientos', file name pattern |
| Export.FourBoxesLayOut | src/services/export.js:138-155 | four boxes from y = 52 put the table at 117, below every box |
| Export.ItemsPdf | src/services/export.js:122-187 | title, information lines, the summary boxes laid out, one table row per item in order, nothing highlighted, `.pdf` file name |
| Export.ConsumablesPdf | src/services/export.js:214-280 | as above for consumables; the highlighted rows are exactly the low-stock ones |
| Export.MovementsPdf | src/services/export.js:309-367 | as above for movements, nothing highlighted |
| Records.OrDash | src/services/export.js:97-98 | `s || '-'` is never empty, is s when s is non-empty and '-' otherwise |
| Records.MovementName | src/services/export.js:284 | the name falls back from the item to the consumable to '-' |
| Js.ParseIntOfIntToString | src/pages/Consumibles/Consumibles.jsx:87-88 | about `Js.ParseInt` and `Js.IntToString`: `parseInt(String(n))` is n |
| Js.FixedTwoRoundTrip | src/services/export.js:100 | about `Js.FixedTwo` and `Js.ReadFixedTwo`: the two-decimal text of an amount reads back as the amount |
| Js.UpperIdempotent | src/services/export.js:151 | about `Js.Upper`: upper-casing twice is upper-casing once |
| Js.SplitJoin | src/services/export.js:119 | about `Js.Split` and `Js.Join`: `split` gives one more part than separators, no part holds the separator, and `join` restores the text |
| Js.SplitFirst | src/services/export.js:119 | about `Js.Split`: the first part is the text before the first separator |
| Js.Upper | src/services/export.js:151 | same length, each character mapped by `Js.UpperChar` |
| Js.NumberOrEmpty | src/pages/Consumibles/Consumibles.jsx:115-116 | `n || ''` is falsy iff n is 0 and converts back to n through `parseInt(..) || 0` |
| Js.OrValue | src/pages/Inventario/Inventario.jsx:154-157 | `x || d` is x when truthy, d otherwise |
| Gateway.FailureNotice | src/pages/Consumibles/Consumibles.jsx:105 | the error toast shows the server's message, or the fallback when there is none |
| Gateway.SaveRequest | src/pages/Consumibles/Consumibles.jsx:93-99 | PUT to the edited id iff a non-zero id is set, otherwise POST, always with the payload (the same choice is at src/pages/Inventario/Inventario.jsx:99-105) |
| Consumibles.WithFilterChangesOneKey | src/pages/Consumibles/Consumibles.jsx:148-151 | about `Consumibles.WithFilter`: a filter change sets one key, keeps the other two and is idempotent |
| Consumibles.FetchParams | src/pages/Consumibles/Consumibles.jsx:43-48 | page and per_page 10 always; search and category only when set |
| Consumibles.Validate | src/pages/Consumibles/Consumibles.jsx:72-91 | empty name, then missing category, are rejected with their messages; otherwise the payload copies the text fields, parses the category, sends stock and minimum as their `parseInt` value, or 0 when that is NaN, carrera 1 |
| Consumibles.TypedStockIsSent | src/pages/Consumibles/Consumibles.jsx:87 | typed digits are sent as their number |
| Consumibles.EditSaveRoundTrip | src/pages/Consumibles/Consumibles.jsx:109-120 | about `Consumibles.FormOf`: saving an edited consumable unchanged sends its own values back; it is rejected only for an empty name or category 0 |
| Consumibles.LowStockBanner | src/pages/Consumibles/Consumibles.jsx:190-199 | the banner is shown iff some row is low and gives the low-stock count |
| Consumibles.ConsumiblesPage.constructor | src/pages/Consumibles/Consumibles.jsx:9-24 | empty filters, page 1 of 1, empty form with unit 'unidad' |
| Consumibles.ConsumiblesPage.ApplyFetch | src/pages/Consumibles/Consumibles.jsx:52-68 | success stores the stock-filtered page and `last_page || 1`; failure only toasts |
| Consumibles.ConsumiblesPage.FilterChange | src/pages/Consumibles/Consumibles.jsx:148-151 | one filter changes and the page goes to 1 |
| Consumibles.ConsumiblesPage.ResetFilters | src/pages/Consumibles/Consumibles.jsx:153-156 | all three filters become '' and the page 1 |
| Consumibles.ConsumiblesPage.First | src/pages/Consumibles/Consumibles.jsx:300-303 | page 1 |
| Consumibles.ConsumiblesPage.Prev | src/pages/Consumibles/Consumibles.jsx:304-307 | `max(1, p - 1)`, never above the old page, page stays >= 1 |
| Consumibles.ConsumiblesPage.Next | src/pages/Consumibles/Consumibles.jsx:322-325 | `min(total, p + 1)`, never above the page count |
| Consumibles.ConsumiblesPage.Last | src/pages/Consumibles/Consumibles.jsx:326-329 | the last page |
| Consumibles.ConsumiblesPage.GoTo | src/pages/Consumibles/Consumibles.jsx:309-320 | a window button sets that page, which is in [1, total] |
| Consumibles.ConsumiblesPage.Edit | src/pages/Consumibles/Consumibles.jsx:109-120 | editing id, the record's form, modal open |
| Consumibles.ConsumiblesPage.OpenNew | src/pages/Consumibles/Consumibles.jsx:171-182 | no id, empty form, modal open |
| Consumibles.ConsumiblesPage.CloseModal | src/pages/Consumibles/Consumibles.jsx:135-146 | no id, empty form, modal closed |
| Consumibles.ConsumiblesPage.Save | src/pages/Consumibles/Consumibles.jsx:71-107 | invalid form: error toast, no request, nothing changes; valid: the request; success toasts `Consumibles.SavedText`, success closes the modal and goes to page 1; failure toasts and changes nothing |
| Inventario.WithFilter | src/pages/Inventario/Inventario.jsx:211-214 | the function `Inventario.WithFilter`: the spread update sets one key and keeps the other |
| Inventario.FetchParams | src/pages/Inventario/Inventario.jsx:57-62 | page and per_page 10 always; estado and search only when set |
| Inventario.Validate | src/pages/Inventario/Inventario.jsx:75-97 | empty code or name, then missing category or laboratory, are rejected with their messages, only the first reported; otherwise the payload copies the fields, parses the references, carries the amount input unparsed, carrera and responsable 1, today's date |
| Inventario.SaveDatesToday | src/pages/Inventario/Inventario.jsx:95 | the acquisition date sent is the date part of the current timestamp |
| Inventario.FormOf | src/pages/Inventario/Inventario.jsx:115-127 | the form copies code, name and state; a reference is truthy iff the item has one; `valor || ''`: a zero amount gives empty typed text and any other amount is held as the item's own number |
| Inventario.EditSaveRoundTrip | src/pages/Inventario/Inventario.jsx:115-127 | about `Inventario.FormOf` and `Inventario.Validate`: saving an unchanged edit is accepted iff code, name and both references are set, and sends the item's code, name, description, state and references, and the item's own amount unless it is 0 |
| Inventario.EstadoBadge | src/pages/Inventario/Inventario.jsx:179-186 | activo/mantenimiento/baja map to success/warning/danger, anything else to secondary; the text is `toUpperCase` of the estado itself |
| Inventario.ImportPayloadOf | src/pages/Inventario/Inventario.jsx:151-162 | code, name and the `valor` cell as given; description, category, laboratory and state as given when truthy, and '', 1, 1 and 'activo' otherwise; carrera and responsable 1; today's date |
| Inventario.ImportPayloadReflectsRow | src/pages/Inventario/Inventario.jsx:151-162 | about `Inventario.ImportPayloadOf`: for rows that fill in the four defaulted columns, two rows post the same body on one day iff they agree on all seven imported columns |
| Inventario.ImportRequestsOfKeyedRows | src/pages/Inventario/Inventario.jsx:147-162 | about `Inventario.ImportRequests` and `Inventario.HasKeyFields`: the requests are the payloads of exactly the rows with a code and a name, in sheet order |
| Inventario.CountAccepted | src/pages/Inventario/Inventario.jsx:163 | the imported count is at most the requests sent |
| Inventario.ImportRows | src/pages/Inventario/Inventario.jsx:147-167 | the rows sent do not depend on the answers; importados counts the accepted requests and importados + errores is the number of keyed rows |
| Inventario.ImportCountsExtremes | src/pages/Inventario/Inventario.jsx:163-165 | all accepted gives no errors, none accepted gives no imports |
| Inventario.InventarioPage.constructor | src/pages/Inventario/Inventario.jsx:10-28 | empty filters, page 1 of 1, empty form with state 'activo', both dialogs closed |
| Inventario.InventarioPage.ApplyFetch | src/pages/Inventario/Inventario.jsx:64-71 | success stores the page and `last_page || 1`; failure only toasts |
| Inventario.InventarioPage.FilterChange | src/pages/Inventario/Inventario.jsx:211-214 | one filter changes and the page goes to 1 |
| Inventario.InventarioPage.ResetFilters | src/pages/Inventario/Inventario.jsx:216-219 | both filters '' and page 1 |
| Inventario.InventarioPage.First | src/pages/Inventario/Inventario.jsx:347-350 | page 1 |
| Inventario.InventarioPage.Prev | src/pages/Inventario/Inventario.jsx:351-354 | `max(1, p - 1)` |
| Inventario.InventarioPage.Next | src/pages/Inventario/Inventario.jsx:369-372 | `min(total, p + 1)`, never above the page count |
| Inventario.InventarioPage.Last | src/pages/Inventario/Inventario.jsx:373-376 | the last page |
| Inventario.InventarioPage.GoTo | src/pages/Inventario/Inventario.jsx:356-367 | a window button sets that page, which is in [1, total] |
| Inventario.InventarioPage.Edit | src/pages/Inventario/Inventario.jsx:115-127 | editing id, the item's form, modal open |
| Inventario.InventarioPage.OpenNew | src/pages/Inventario/Inventario.jsx:238-250 | no id, empty form, modal open |
| Inventario.InventarioPage.CloseModal | src/pages/Inventario/Inventario.jsx:197-209 | no id, form back to defaults (estado 'activo', the rest ''), modal closed |
| Inventario.InventarioPage.Save | src/pages/Inventario/Inventario.jsx:74-113 | invalid form: error toast, no request, nothing changes; valid: the request; success toasts `Inventario.SavedText`, success closes the modal and goes to page 1; failure toasts |
| Inventario.InventarioPage.OpenImport | src/pages/Inventario/Inventario.jsx:232 | the import dialog opens |
| Inventario.InventarioPage.ImportExcel | src/pages/Inventario/Inventario.jsx:142-172 | sends the keyed rows, toasts both counts as `Inventario.ImportSummary` writes them, closes the dialog, page 1 |
| Movimientos.Validate | src/pages/Movimientos/Movimientos.jsx:61-89 | empty type, then no reference, then empty quantity are rejected in that order; the payload holds item_id only when set and consumible_id only when set |
| Movimientos.PayloadNamesOneTarget | src/pages/Movimientos/Movimientos.jsx:83-89 | from an exclusive form exactly one reference is sent |
| Movimientos.TipoBadge | src/pages/Movimientos/Movimientos.jsx:112-120 | entrada/salida/mantenimiento/baja map to success/warning/info/danger, else secondary; the text is `toUpperCase` of the tipo itself |
| Movimientos.ListingMatchesPdf | src/pages/Movimientos/Movimientos.jsx:202-215 | about `Movimientos.ListingRow`: the listing shows the PDF export's name, quantity or '-', user and notes, and its type except that the PDF writes '-' for an empty one |
| Movimientos.MovimientosPage.constructor | src/pages/Movimientos/Movimientos.jsx:8-19 | no filter, empty form with type 'entrada', modal closed |
| Movimientos.MovimientosPage.FetchTipo | src/pages/Movimientos/Movimientos.jsx:48-49 | the type parameter is sent only when a type is chosen |
| Movimientos.MovimientosPage.FilterTipo | src/pages/Movimientos/Movimientos.jsx:166-169 | the filter becomes the chosen type |
| Movimientos.MovimientosPage.ApplyFetch | src/pages/Movimientos/Movimientos.jsx:51-57 | success stores the list; failure only toasts |
| Movimientos.MovimientosPage.SelectItem | src/pages/Movimientos/Movimientos.jsx:251 | choosing an item clears the consumable, keeping at most one reference |
| Movimientos.MovimientosPage.SelectConsumable | src/pages/Movimientos/Movimientos.jsx:267 | choosing a consumable clears the item |
| Movimientos.MovimientosPage.SetTipo | src/pages/Movimientos/Movimientos.jsx:238 | sets the type only |
| Movimientos.MovimientosPage.SetCantidad | src/pages/Movimientos/Movimientos.jsx:285 | sets the quantity only |
| Movimientos.MovimientosPage.SetObservaciones | src/pages/Movimientos/Movimientos.jsx:296 | sets the notes only |
| Movimientos.MovimientosPage.OpenNew | src/pages/Movimientos/Movimientos.jsx:141-152 | form reset to type 'entrada', modal open |
| Movimientos.MovimientosPage.CloseModal | src/pages/Movimientos/Movimientos.jsx:101-110 | form reset to type 'entrada' and the rest '', modal closed |
| Movimientos.MovimientosPage.Save | src/pages/Movimientos/Movimientos.jsx:60-99 | invalid: error toast, no request, nothing changes; valid: the payload, naming exactly one reference; success resets the modal; failure toasts |
| Usuarios.Validate | src/pages/Usuarios/Usuarios.jsx:40-63 | empty name or email rejected first; a password is required only when creating; create sends the whole form, update exactly name, email and role |
| Usuarios.FormOf | src/pages/Usuarios/Usuarios.jsx:72-81 | the edit form has no password |
| Usuarios.EditSaveRoundTrip | src/pages/Usuarios/Usuarios.jsx:72-81 | saving an edited user unchanged is accepted without password and sends the user's name, email and role |
| Usuarios.PasswordOnlyOnCreate | src/pages/Usuarios/Usuarios.jsx:45-57 | when editing the typed password changes nothing; when creating the save is accepted iff a password is given |
| Usuarios.RolBadge | src/pages/Usuarios/Usuarios.jsx:107-116 | the five roles map to danger/primary/info/success/warning, anything else to secondary; the text is `toUpperCase` of the rol itself |
| Usuarios.UsuariosPage.constructor | src/pages/Usuarios/Usuarios.jsx:8-17 | empty form with role 'responsable', no id, modal closed |
| Usuarios.UsuariosPage.ApplyFetch | src/pages/Usuarios/Usuarios.jsx:30-36 | success stores the list; failure only toasts |
| Usuarios.UsuariosPage.Edit | src/pages/Usuarios/Usuarios.jsx:72-81 | editing id, the user's form, modal open |
| Usuarios.UsuariosPage.OpenNew | src/pages/Usuarios/Usuarios.jsx:129-133 | no id, empty form, modal open |
| Usuarios.UsuariosPage.CloseModal | src/pages/Usuarios/Usuarios.jsx:96-105 | no id, role 'responsable' and the rest '', modal closed |
| Usuarios.UsuariosPage.Save | src/pages/Usuarios/Usuarios.jsx:39-70 | invalid: error toast, no request, nothing changes; valid: the request; success toasts `Usuarios.SavedText`, success resets the modal; failure toasts |
| ImportExcel.PreviewCell | src/components/Common/ImportExcel.jsx:133 | '-' for a missing value, `String(val)` otherwise |
| ImportExcel.PreviewCellOfNumber | src/components/Common/ImportExcel.jsx:133 | a numeric cell's text reads back as the number |
| ImportExcel.ImportDialog.constructor | src/components/Common/ImportExcel.jsx:8-10 | no file, empty preview, no error |
| ImportExcel.ImportDialog.ImportEnabled | src/components/Common/ImportExcel.jsx:154 | enabled iff a file is stored, the preview is non-empty and nothing is loading |
| ImportExcel.ImportDialog.FileChange | src/components/Common/ImportExcel.jsx:12-51 | with `ImportExcel.AcceptedType` as the type test: no file: nothing changes; wrong type: error, file and preview kept; otherwise the file is stored, then a read error or an empty sheet sets the error and keeps the preview, and a non-empty sheet clears the error and previews its first min(5, n) rows as a prefix |
| ImportExcel.ImportDialog.Import | src/components/Common/ImportExcel.jsx:53-81 | no file or no preview: toast only, no import; otherwise all parsed rows go to the import, success resets file, preview and error, failure sets the error and keeps file and preview |
| ImportExcel.EmptyFileAfterGoodOne | src/components/Common/ImportExcel.jsx:30-45 | an empty sheet after a good one leaves the old preview beside the new file, so import stays enabled |
| Navbar.FirstChars | src/components/Layout/Navbar.jsx:20 | at most one character per part |
| Navbar.GetInitials | src/components/Layout/Navbar.jsx:19-21 | never empty; 'U' without a name; otherwise at most one letter per part of `split(' ')` |
| Navbar.FirstCharsOfSplit | src/components/Layout/Navbar.jsx:20 | the first characters of the parts are exactly the word starts of the name, in order (empty parts give nothing) |
| Navbar.NoWordStarts | src/components/Layout/Navbar.jsx:20 | there are no word starts iff the name is all spaces |
| Navbar.GetInitialsMeaning | src/components/Layout/Navbar.jsx:20 | the initials are the capitalised word starts, and 'U' for an all-space name |
| Navbar.InitialsExamples | src/components/Layout/Navbar.jsx:20 | "ana b" gives "AB" and "  " gives "U" |
| Configuracion.ChangePassword | src/pages/Configuracion/Configuracion.jsx:33-55 | a missing current or new password stops after its prompt with no request; a mismatched confirmation toasts an error; otherwise the body is exactly {current_password, password}, then a success or failure toast |
| Configuracion.NotificationsJsonInjective | src/pages/Configuracion/Configuracion.jsx:25 | about `Configuracion.NotificationsJson` (`JSON.stringify` of the switches): different switch settings are stored as different texts |
| Configuracion.ThemeOf | src/pages/Configuracion/Configuracion.jsx:19 | never empty; 'claro' when storage has no theme |
| Configuracion.Saved | src/pages/Configuracion/Configuracion.jsx:25-26 | saving adds both keys and keeps every other key's value |
| Configuracion.SaveThenLoad | src/pages/Configuracion/Configuracion.jsx:19-26 | the saved theme is what loads next, '' falling back to 'claro'; the stored notifications are the saved ones |
| Configuracion.SettingsPage.constructor | src/pages/Configuracion/Configuracion.jsx:11-16 | all notifications on, theme 'claro' |
| Configuracion.SettingsPage.LoadTheme | src/pages/Configuracion/Configuracion.jsx:18-21 | the theme becomes the stored one or 'claro' |
| Configuracion.SettingsPage.SetNotification | src/pages/Configuracion/Configuracion.jsx:154-177 | one switch changes, the others are kept |
| Configuracion.SettingsPage.SetTheme | src/pages/Configuracion/Configuracion.jsx:217-228 | the theme becomes the chosen one |
| Configuracion.SettingsPage.SaveSettings | src/pages/Configuracion/Configuracion.jsx:23-31 | storage gains 'notificaciones' and 'tema'; success toast |

## Left out

- Records: a key missing from an API record, as opposed to one sent as `null`, is not modelled. `undefined <= n` is false, so the listing and the exports would show such a consumable as OK where the model, reading 0, shows it as low. `String(undefined).toUpperCase()` would likewise be 'UNDEFINED' where the model gives ''.
- Inventario.FormOf: the amount input's display text, `String(valor)` of the number (for example '123.5'), is not modelled; the form holds the number itself. If the API sent the amount as text, `'0.00' || ''` would keep '0.00' where the model gives ''; `Inventario.EditSaveRoundTrip` inherits this.
- Inventario.EditSaveRoundTrip: assumes a numeric amount, as `Inventario.FormOf` does.
- Export.ItemsWorkbook: assumes a numeric `valor`. An amount sent as text would make `valor?.toFixed(2)` throw a TypeError, and no file would be written; the model always builds the workbook.
- Export.ItemsPdf: the same assumption; a text amount would throw at the row mapping and no PDF would be saved.
- Inventario.EstadoBadge: a state sent as `null` renders as 'NULL' through `String(estado).toUpperCase()`; the model reads null as '' and gives ''. A `estado` naming a property every object inherits (such as 'constructor', 'toString' or '__proto__') is outside the model: the `variants[estado]` lookup would find that property and the colour would not be 'secondary'; the server sends only the listed values.
- Movimientos.TipoBadge: likewise, a `null` type renders as 'NULL' where the model gives ''. A `tipo` naming a property every object inherits (such as 'constructor', 'toString' or '__proto__') is outside the model: the `variants[tipo]` lookup would find that property and the colour would not be 'secondary'; the server sends only the listed values.
- Movimientos.ListingMatchesPdf: for a `null` type the listing would show 'NULL' while the PDF shows '-'; the lemma's case for an empty type covers only ''.
- Usuarios.RolBadge: a `null` role renders as 'NULL' where the model gives ''. A `rol` naming a property every object inherits (such as 'constructor', 'toString' or '__proto__') is outside the model: the `variants[rol]` lookup would find that property and the colour would not be 'secondary'; the server sends only the listed values.
- Consumibles.FetchParams: the params object is handed to `request` as its data argument, and `services/api.js` is not part of this model. Whether it reaches the server as a query string is not modelled; `Inventario.FetchParams` and `Movimientos.MovimientosPage.FetchTipo` likewise.
- Inventario.Validate: `valor` is sent as the form's value before `parseFloat(valor) || 0`, because floating-point parsing is not modelled. `formatValue` (src/pages/Inventario/Inventario.jsx:188-195) is left out for the same reason.
- Inventario.ImportPayloadOf: `valor` is posted as the sheet's cell before `parseFloat(row.valor) || 0`, because floating-point parsing is not modelled; a cell such as 'abc' or '' would be sent as 0.
- Inventario.ImportRows: one date, `today`, is used for the whole batch, whereas each posted row reads the clock again (`new Date()` inside the loop), so an import running across UTC midnight would post two different `fecha_adquisicion` values.
- Export.ValorTextRoundTrip: amounts are exact hundredths, so the rounding of `toFixed(2)` on binary floating point is not modelled.
- Js.ParseInt: decimal only; the `0x` prefix and other radix inputs of `parseInt` are not modelled, and only ASCII white space is skipped before the digits, whereas `parseInt` also skips U+00A0, U+FEFF, U+2028, U+2029 and the other space separators.
- Js.Upper: covers ASCII and Latin-1 letters only; other scripts and special cases such as 'ß' are not modelled.
- Navbar.GetInitials: characters are Unicode scalar values, whereas `n[0]` takes one UTF-16 code unit, so a name starting with a character outside the Basic Multilingual Plane differs.
- Gateway.Notice: only the toast a page handler shows itself. The `request` function of `useApi` also toasts `response.data.message` on success when the server sends one, and the error's message on failure unless it contains '401' (src/hooks/useApi.js:18-27), so a save may show two toasts; those toasts are outside the model.
- The drawing itself: colours, fonts, rectangles apart from the summary boxes, column widths of the PDF tables, and `addHeader`/`addFooter`. The footer depends on the library's page count and is drawn once, after the table.
- The library's meaning of `data.row.index` for head rows in `didDrawCell`: `Export.FillsCell` takes the index as given.
- `handleDelete` on every page: a browser confirmation followed by a request, no client logic beyond the toast.
- The users page search and role filters, and the fetch of categories, laboratories, items and consumables for the selects. These only forward values to the server.
- `useEffect` re-fetch scheduling, the loading flags and spinners, and the ordering of asynchronous callbacks. A `FileReader` load is taken to complete before the next event.
- The outer `catch` of `handleImportExcel` ('Error al importar items'): for a list of rows nothing outside the per-row `try` can throw.
- The `catch` of `handleSaveSettings`: a storage write that throws, such as an exceeded quota, is not modelled.
- The saved notification switches are never read back by the settings page; the model keeps that as it is.
- Rendering-only components and pages: layout, sidebar, login, dashboard, reports, profile, the search filter and the status badge.
