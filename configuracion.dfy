/** The settings page: the password-change dialogue, whose three prompts are
    answered by the user, and the theme and notification settings kept in the
    browser's storage, a key to value map. */
module Configuracion {
  import opened Wrappers
  import opened Gateway

  /** What `prompt` returns: the text typed, or None when cancelled. */
  type Answer = Option<string>

  /** `!answer`: a cancelled prompt and an empty answer both stop the flow. */
  predicate Given(a: Answer)
  {
    a.Some? && a.value != ""
  }

  /** The body posted to change the password. */
  datatype PasswordChange = PasswordChange(currentPassword: string, password: string)

  /** `handleChangePassword`: asks for the current password, the new one and
      its confirmation, stopping at the first missing answer or at a mismatch.
      The three answers are given in advance; `prompts` is how many of the
      prompts are shown and `response` is how the request ends. */
  method ChangePassword(current: Answer, newPassword: Answer, confirm: Answer, response: Response)
    returns (prompts: nat, request: Option<PasswordChange>, notice: Notice)
    ensures !Given(current) ==> prompts == 1 && request == None && notice == Silent
    ensures Given(current) && !Given(newPassword) ==> prompts == 2 && request == None && notice == Silent
    ensures Given(current) && Given(newPassword) ==> prompts == 3
    ensures Given(current) && Given(newPassword) && confirm != newPassword ==>
      request == None && notice == ErrorToast("Las contraseñas no coinciden")
    ensures request.Some? <==> Given(current) && Given(newPassword) && confirm == newPassword
    ensures request.Some? ==> request.value == PasswordChange(current.value, newPassword.value)
    ensures request.Some? && response.Succeeded? ==> notice == SuccessToast("🔐 Contraseña actualizada")
    ensures request.Some? && response.Failed? ==>
      notice == FailureNotice(response.message, "Error al cambiar contraseña")
  {
    prompts := 1;
    if !Given(current) {
      return prompts, None, Silent;
    }
    prompts := 2;
    if !Given(newPassword) {
      return prompts, None, Silent;
    }
    prompts := 3;
    if newPassword != confirm {
      return prompts, None, ErrorToast("Las contraseñas no coinciden");
    }
    request := Some(PasswordChange(current.value, newPassword.value));
    if response.Succeeded? {
      notice := SuccessToast("🔐 Contraseña actualizada");
    } else {
      notice := FailureNotice(response.message, "Error al cambiar contraseña");
    }
  }

  /** The three notification switches. */
  datatype Notifications = Notifications(stockBajo: bool, mantenimiento: bool, reportes: bool)

  const AllNotifications := Notifications(true, true, true)

  datatype NotificationKey = StockBajo | Mantenimiento | Reportes

  function JsonBool(b: bool): string
  {
    if b then "true" else "false"
  }

  /** `JSON.stringify(notificaciones)`, keys in declaration order. */
  function NotificationsJson(n: Notifications): string
  {
    "{\"stock_bajo\":" + JsonBool(n.stockBajo) + ",\"mantenimiento\":" + JsonBool(n.mantenimiento)
      + ",\"reportes\":" + JsonBool(n.reportes) + "}"
  }

  /** Different settings are stored as different texts. */
  lemma NotificationsJsonInjective(a: Notifications, b: Notifications)
    requires NotificationsJson(a) == NotificationsJson(b)
    ensures a == b
  {
    var ja, jb := NotificationsJson(a), NotificationsJson(b);
    var p1 := "{\"stock_bajo\":";
    assert ja[|p1|] == (if a.stockBajo then 't' else 'f');
    assert jb[|p1|] == (if b.stockBajo then 't' else 'f');
    var a1, b1 := |p1 + JsonBool(a.stockBajo)|, |p1 + JsonBool(b.stockBajo)|;
    assert a1 == b1;
    var p2 := ",\"mantenimiento\":";
    assert ja[a1 + |p2|] == (if a.mantenimiento then 't' else 'f');
    assert jb[b1 + |p2|] == (if b.mantenimiento then 't' else 'f');
    var a2, b2 := a1 + |p2 + JsonBool(a.mantenimiento)|, b1 + |p2 + JsonBool(b.mantenimiento)|;
    assert a2 == b2;
    var p3 := ",\"reportes\":";
    assert ja[a2 + |p3|] == (if a.reportes then 't' else 'f');
    assert jb[b2 + |p3|] == (if b.reportes then 't' else 'f');
  }

  /** `localStorage.getItem('tema') || 'claro'`. */
  function ThemeOf(storage: map<string, string>): (t: string)
    ensures t != ""
    ensures "tema" !in storage ==> t == "claro"
  {
    if "tema" in storage && storage["tema"] != "" then storage["tema"] else "claro"
  }

  /** What `handleSaveSettings` leaves in the storage. */
  function Saved(storage: map<string, string>, n: Notifications, tema: string): (s: map<string, string>)
    ensures s.Keys == storage.Keys + {"notificaciones", "tema"}
    ensures forall k | k in storage && k != "notificaciones" && k != "tema" :: s[k] == storage[k]
  {
    storage["notificaciones" := NotificationsJson(n)]["tema" := tema]
  }

  /** A saved theme is the one loaded next time, an empty one falling back to
      'claro'; the saved notifications are the ones stored. */
  lemma SaveThenLoad(storage: map<string, string>, n: Notifications, tema: string)
    ensures ThemeOf(Saved(storage, n, tema)) == (if tema != "" then tema else "claro")
    ensures Saved(storage, n, tema)["notificaciones"] == NotificationsJson(n)
  {
  }

  class SettingsPage {
    var notificaciones: Notifications
    var tema: string
    var storage: map<string, string>

    /** The page as it opens, before the stored theme is read. */
    constructor (stored: map<string, string>)
      ensures notificaciones == AllNotifications && tema == "claro" && storage == stored
    {
      notificaciones := AllNotifications;
      tema := "claro";
      storage := stored;
    }

    /** The effect run once on opening: the stored theme, or 'claro'. */
    method LoadTheme()
      modifies this`tema
      ensures tema == ThemeOf(storage)
    {
      tema := ThemeOf(storage);
    }

    /** One of the switches. */
    method SetNotification(key: NotificationKey, on: bool)
      modifies this`notificaciones
      ensures key == StockBajo ==> notificaciones == old(notificaciones).(stockBajo := on)
      ensures key == Mantenimiento ==> notificaciones == old(notificaciones).(mantenimiento := on)
      ensures key == Reportes ==> notificaciones == old(notificaciones).(reportes := on)
    {
      match key
      case StockBajo => notificaciones := notificaciones.(stockBajo := on);
      case Mantenimiento => notificaciones := notificaciones.(mantenimiento := on);
      case Reportes => notificaciones := notificaciones.(reportes := on);
    }

    /** The theme radio buttons. */
    method SetTheme(value: string)
      modifies this`tema
      ensures tema == value
    {
      tema := value;
    }

    /** `handleSaveSettings`: writes both keys and reports it. */
    method SaveSettings() returns (notice: Notice)
      modifies this`storage
      ensures storage == Saved(old(storage), notificaciones, tema)
      ensures notice == SuccessToast("⚙️ Configuración guardada exitosamente")
    {
      storage := storage["notificaciones" := NotificationsJson(notificaciones)];
      storage := storage["tema" := tema];
      notice := SuccessToast("⚙️ Configuración guardada exitosamente");
    }
  }
}
