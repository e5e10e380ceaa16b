/** The spreadsheet import dialog: the chosen file, the preview of its first
    rows and the error shown, as `handleFileChange` and `handleImport` set
    them. Reading the file is represented by its parsed rows, handed in. */
module ImportExcel {
  import opened Wrappers
  import opened Js
  import opened Gateway

  /** A chosen file, as far as the dialog looks at it. */
  datatype FileInfo = FileInfo(name: string, mimeType: string)

  const PreviewRows := 5

  /** The MIME types of .xlsx, .xls and .csv files. */
  predicate AcceptedType(mimeType: string)
  {
    mimeType in ["application/vnd.openxmlformats-officedocument.spreadsheetml.sheet",
                 "application/vnd.ms-excel",
                 "text/csv"]
  }

  /** A preview cell: '-' for a missing value, `String(val)` otherwise. */
  function PreviewCell(v: Value): (s: string)
    ensures v.Null? ==> s == "-"
    ensures !v.Null? ==> s == ValueToString(v)
  {
    if v.Null? then "-" else ValueToString(v)
  }

  /** A numeric cell shows its digits, which read back as the number. */
  lemma PreviewCellOfNumber(n: int)
    ensures ParseInt(PreviewCell(Num(n))) == Int(n)
  {
    ParseIntOfIntToString(n);
  }

  class ImportDialog {
    var file: Option<FileInfo>
    var preview: seq<Object>
    var error: Option<string>

    /** A preview only ever holds the first rows of some file. */
    predicate Valid()
      reads this
    {
      |preview| <= PreviewRows
    }

    constructor ()
      ensures Valid() && file == None && preview == [] && error == None
    {
      file := None;
      preview := [];
      error := None;
    }

    /** `disabled={!file || preview.length === 0 || loading}`, negated. */
    function ImportEnabled(loading: bool): (e: bool)
      reads this
      ensures e <==> file.Some? && |preview| > 0 && !loading
    {
      file.Some? && |preview| > 0 && !loading
    }

    /** `handleFileChange`; `parsed` is what reading the chosen file gives: its
        rows, or the message of the exception raised while reading it. */
    method FileChange(selected: Option<FileInfo>, parsed: Result<seq<Object>, string>)
      requires Valid()
      modifies this`file, this`preview, this`error
      ensures Valid()
      ensures selected.None? ==> file == old(file) && preview == old(preview) && error == old(error)
      ensures selected.Some? && !AcceptedType(selected.value.mimeType) ==>
        && file == old(file) && preview == old(preview)
        && error == Some("Por favor, selecciona un archivo Excel o CSV válido")
      ensures selected.Some? && AcceptedType(selected.value.mimeType) ==> file == selected
      ensures selected.Some? && AcceptedType(selected.value.mimeType) && parsed.Failure? ==>
        preview == old(preview) && error == Some("Error al leer el archivo: " + parsed.error)
      ensures selected.Some? && AcceptedType(selected.value.mimeType) && parsed.Success? && parsed.value == [] ==>
        preview == old(preview) && error == Some("El archivo está vacío")
      ensures selected.Some? && AcceptedType(selected.value.mimeType) && parsed.Success? && parsed.value != [] ==>
        && error == None
        && preview <= parsed.value
        && |preview| == if |parsed.value| < PreviewRows then |parsed.value| else PreviewRows
    {
      if selected.None? {
        return;
      }
      error := None;
      if !AcceptedType(selected.value.mimeType) {
        error := Some("Por favor, selecciona un archivo Excel o CSV válido");
        return;
      }
      file := selected;
      if parsed.Failure? {
        error := Some("Error al leer el archivo: " + parsed.error);
        return;
      }
      var data := parsed.value;
      if |data| == 0 {
        error := Some("El archivo está vacío");
        return;
      }
      preview := if |data| < PreviewRows then data else data[..PreviewRows];
    }

    /** `handleImport`; `parsed` is the second reading of the stored file and
        `outcome` how `onImport` ends. `imported` is what `onImport` received,
        if it was called: all the rows, not just the preview. */
    method Import(parsed: Result<seq<Object>, string>, outcome: Response)
      returns (notice: Notice, imported: Option<seq<Object>>)
      requires Valid()
      modifies this`file, this`preview, this`error
      ensures Valid()
      ensures old(file).None? ==>
        && notice == ErrorToast("Selecciona un archivo") && imported == None
        && file == old(file) && preview == old(preview) && error == old(error)
      ensures old(file).Some? && old(preview) == [] ==>
        && notice == ErrorToast("No hay datos en el archivo") && imported == None
        && file == old(file) && preview == old(preview) && error == old(error)
      ensures old(file).Some? && old(preview) != [] && parsed.Failure? ==>
        && imported == None && notice == ErrorToast("Error al importar datos")
        && error == Some("Error al importar datos: " + parsed.error)
        && file == old(file) && preview == old(preview)
      ensures old(file).Some? && old(preview) != [] && parsed.Success? ==>
        imported == Some(parsed.value)
      ensures old(file).Some? && old(preview) != [] && parsed.Success? && outcome.Succeeded? ==>
        && notice == Silent && file == None && preview == [] && error == None
      ensures old(file).Some? && old(preview) != [] && parsed.Success? && outcome.Failed? ==>
        && notice == ErrorToast("Error al importar datos")
        && error == Some("Error al importar datos: " + outcome.message)
        && file == old(file) && preview == old(preview)
    {
      if file.None? {
        return ErrorToast("Selecciona un archivo"), None;
      }
      if |preview| == 0 {
        return ErrorToast("No hay datos en el archivo"), None;
      }
      if parsed.Failure? {
        error := Some("Error al importar datos: " + parsed.error);
        return ErrorToast("Error al importar datos"), None;
      }
      imported := Some(parsed.value);
      if outcome.Succeeded? {
        file := None;
        preview := [];
        error := None;
        notice := Silent;
      } else {
        error := Some("Error al importar datos: " + outcome.message);
        notice := ErrorToast("Error al importar datos");
      }
    }
  }

  /** Choosing an empty spreadsheet after a good one keeps the good one's
      preview beside the new file, so importing stays enabled and would send
      the new file's rows. */
  method EmptyFileAfterGoodOne(row: Object) returns (enabled: bool, file: Option<FileInfo>, previewRows: nat)
    ensures enabled && file == Some(FileInfo("vacio.csv", "text/csv")) && previewRows == 1
  {
    var d := new ImportDialog();
    d.FileChange(Some(FileInfo("items.csv", "text/csv")), Success([row]));
    d.FileChange(Some(FileInfo("vacio.csv", "text/csv")), Success([]));
    enabled := d.ImportEnabled(false);
    file := d.file;
    previewRows := |d.preview|;
  }
}
