/** The user administration screen: the user modal, whose save creates a user
    with a password or updates one without touching it, and the role badges. */
module Usuarios {
  import opened Wrappers
  import opened Js
  import opened Records
  import opened Gateway

  /** The modal's form. */
  datatype Form = Form(name: string, email: string, password: string, rol: string)

  const EmptyForm := Form("", "", "", "responsable")

  /** What a valid save sends: the whole form on create; on update only the
      name, the email and the role, so an update never carries a password. */
  datatype Request = CreateUser(form: Form) | UpdateUser(id: int, name: string, email: string, rol: string)

  /** Whether the modal edits an existing user (`if (editingId)`). */
  predicate Editing(editingId: Option<int>)
  {
    editingId.Some? && editingId.value != 0
  }

  /** `handleSaveUsuario`'s two checks, in order, and the request it sends. */
  function Validate(f: Form, editingId: Option<int>): (r: Result<Request, string>)
    ensures r.Failure? <==> f.name == "" || f.email == "" || (!Editing(editingId) && f.password == "")
    ensures (f.name == "" || f.email == "") ==> r == Failure("Nombre y email son requeridos")
    ensures f.name != "" && f.email != "" && !Editing(editingId) && f.password == ""
            ==> r == Failure("Contraseña es requerida para nuevos usuarios")
    ensures r.Success? && Editing(editingId) ==>
              r.value == UpdateUser(editingId.value, f.name, f.email, f.rol)
    ensures r.Success? && !Editing(editingId) ==> r.value == CreateUser(f) && f.password != ""
  {
    if f.name == "" || f.email == "" then Failure("Nombre y email son requeridos")
    else if !Editing(editingId) && f.password == "" then Failure("Contraseña es requerida para nuevos usuarios")
    else if Editing(editingId) then Success(UpdateUser(editingId.value, f.name, f.email, f.rol))
    else Success(CreateUser(f))
  }

  /** `handleEdit`'s form: the user's name, email and role, and no password. */
  function FormOf(u: User): (f: Form)
    ensures f.password == ""
  {
    Form(u.name, u.email, "", u.rol)
  }

  /** Saving an edited user unchanged is accepted without a password and sends
      the user's own name, email and role back. */
  lemma EditSaveRoundTrip(u: User)
    requires u.name != "" && u.email != "" && u.id != 0
    ensures Validate(FormOf(u), Some(u.id)) == Success(UpdateUser(u.id, u.name, u.email, u.rol))
  {
  }

  /** The password typed while editing is never sent; the same form without an
      edited user is rejected unless it has one. */
  lemma PasswordOnlyOnCreate(f: Form, id: int)
    requires f.name != "" && f.email != "" && id != 0
    ensures Validate(f, Some(id)) == Validate(f.(password := ""), Some(id))
    ensures Validate(f, None).Success? <==> f.password != ""
  {
  }

  function SavedText(r: Request): string
  {
    if r.UpdateUser? then "Usuario actualizado exitosamente" else "Usuario creado exitosamente"
  }

  /** `getRolBadge`: the colour of a role and its text in capitals. */
  function RolBadge(rol: string): (b: (string, string))
    ensures b.0 == "danger" <==> rol == "admin"
    ensures b.0 == "primary" <==> rol == "almacen"
    ensures b.0 == "info" <==> rol == "responsable"
    ensures b.0 == "success" <==> rol == "docente"
    ensures b.0 == "warning" <==> rol == "auditor"
    ensures b.0 == "secondary" <==> rol !in {"admin", "almacen", "responsable", "docente", "auditor"}
    ensures b.1 == Upper(rol) && |b.1| == |rol| && Upper(b.1) == b.1
  {
    UpperIdempotent(rol);
    (if rol == "admin" then "danger"
     else if rol == "almacen" then "primary"
     else if rol == "responsable" then "info"
     else if rol == "docente" then "success"
     else if rol == "auditor" then "warning"
     else "secondary",
     Upper(rol))
  }

  /** The screen's state. */
  class UsuariosPage {
    var usuarios: seq<User>
    var form: Form
    var editingId: Option<int>
    var showModal: bool

    constructor ()
      ensures usuarios == [] && form == EmptyForm && editingId == None && !showModal
    {
      usuarios := [];
      form := EmptyForm;
      editingId := None;
      showModal := false;
    }

    /** `fetchUsuarios` once the request has ended. */
    method ApplyFetch(outcome: Result<seq<User>, string>) returns (notice: Notice)
      modifies this`usuarios
      ensures outcome.Success? ==> usuarios == outcome.value && notice == Silent
      ensures outcome.Failure? ==>
        usuarios == old(usuarios) && notice == ErrorToast("Error al cargar usuarios")
    {
      if outcome.Success? {
        usuarios := outcome.value;
        notice := Silent;
      } else {
        notice := ErrorToast("Error al cargar usuarios");
      }
    }

    /** `handleEdit`. */
    method Edit(u: User)
      modifies this`editingId, this`form, this`showModal
      ensures editingId == Some(u.id) && form == FormOf(u) && showModal
    {
      editingId := Some(u.id);
      form := FormOf(u);
      showModal := true;
    }

    /** The 'Nuevo Usuario' button. */
    method OpenNew()
      modifies this`editingId, this`form, this`showModal
      ensures editingId == None && form == EmptyForm && showModal
    {
      editingId := None;
      form := EmptyForm;
      showModal := true;
    }

    /** `handleCloseModal`. */
    method CloseModal()
      modifies this`editingId, this`form, this`showModal
      ensures editingId == None && form == EmptyForm && !showModal
    {
      showModal := false;
      editingId := None;
      form := EmptyForm;
    }

    /** `handleSaveUsuario`; `response` is how the request ends. */
    method Save(response: Response) returns (notice: Notice, request: Option<Request>)
      modifies this`editingId, this`form, this`showModal
      ensures Validate(old(form), old(editingId)).Failure? ==>
        && request == None && notice == ErrorToast(Validate(old(form), old(editingId)).error)
        && form == old(form) && editingId == old(editingId) && showModal == old(showModal)
      ensures Validate(old(form), old(editingId)).Success? ==>
        request == Some(Validate(old(form), old(editingId)).value)
      ensures Validate(old(form), old(editingId)).Success? && response.Succeeded? ==>
        && notice == SuccessToast(SavedText(request.value))
        && form == EmptyForm && editingId == None && !showModal
      ensures Validate(old(form), old(editingId)).Success? && response.Failed? ==>
        && notice == FailureNotice(response.message, "Error al guardar usuario")
        && form == old(form) && editingId == old(editingId) && showModal == old(showModal)
    {
      var checked := Validate(form, editingId);
      if checked.Failure? {
        return ErrorToast(checked.error), None;
      }
      request := Some(checked.value);
      if response.Succeeded? {
        notice := SuccessToast(SavedText(checked.value));
        CloseModal();
      } else {
        notice := FailureNotice(response.message, "Error al guardar usuario");
      }
    }
  }
}
