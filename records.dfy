/** The records the API returns, as the console reads them, and the cells of
    exported tables. A text field the API sends as null is the empty string and
    a numeric one is 0: the console treats both alike, as falsy, and null
    compares as 0. */
module Records {

  /** An equipment item. `categoria` and `laboratorio` are the names of the
      joined records (`item.categoria?.nombre`); `valor` is in hundredths. */
  datatype Item = Item(
    id: int,
    codigo: string,
    nombre: string,
    descripcion: string,
    categoriaId: int,
    laboratorioId: int,
    categoria: string,
    laboratorio: string,
    estado: string,
    valor: int,
    fechaAdquisicion: string)

  /** A consumable with its current stock and its reorder threshold. */
  datatype Consumable = Consumable(
    id: int,
    nombre: string,
    descripcion: string,
    categoriaId: int,
    categoria: string,
    stock: int,
    stockMinimo: int,
    unidadMedida: string)

  /** A stock movement; `itemNombre`, `consumibleNombre` and `usuario` are the
      names of the joined item, consumable and user. */
  datatype Movement = Movement(
    id: int,
    itemNombre: string,
    consumibleNombre: string,
    tipo: string,
    cantidad: int,
    usuario: string,
    observaciones: string,
    createdAt: string)

  datatype User = User(id: int, name: string, email: string, rol: string)

  /** A cell of an exported sheet or table. */
  datatype Cell = Text(s: string) | Number(n: int)

  /** `s || '-'`: the placeholder for a missing or empty value. */
  function OrDash(s: string): (r: string)
    ensures r != ""
    ensures s != "" ==> r == s
    ensures s == "" ==> r == "-"
  {
    if s != "" then s else "-"
  }

  /** `m.item?.nombre || m.consumible?.nombre || '-'`. */
  function MovementName(m: Movement): (r: string)
    ensures r != ""
    ensures r == m.itemNombre || r == m.consumibleNombre || r == "-"
    ensures m.itemNombre != "" ==> r == m.itemNombre
    ensures m.itemNombre == "" && m.consumibleNombre != "" ==> r == m.consumibleNombre
  {
    if m.itemNombre != "" then m.itemNombre else OrDash(m.consumibleNombre)
  }
}
