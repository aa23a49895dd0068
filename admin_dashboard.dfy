/** src/pages/AdminDashboard.jsx: the administrator's panel. Modelled here:
    creating accounts of the three roles, the role selector of that form,
    changing the administrator's own password, and switching an account's
    status. Requests go through the panel's `api` helper, whose answers are
    inputs; every request sent is recorded in `calls`, and `Headers` gives
    the headers it goes out with. */
module AdminDashboard {
  import opened Js
  import opened Http
  import ApiBase
  import Register
  import Roles

  /** The "Crear usuario" form. */
  datatype NewUser = NewUser(
    nombre: string, apellido: string, email: string, telefono: string,
    direccion: string, password: string, rol: string)

  const EmptyNewUser := NewUser("", "", "", "", "", "", "donante")

  /** Some field of the form is empty. */
  predicate MissingField(u: NewUser) {
    u.nombre == "" || u.apellido == "" || u.email == "" || u.telefono == "" || u.direccion == "" || u.password == ""
  }

  /** The sign-up path for the form's role; only an admin can be forced. */
  function CreateTarget(rol: string, forceAdmin: bool): (path: string)
    ensures path == "/admin/registro?force=true" <==> rol == "admin" && forceAdmin
    ensures rol == "admin" && !forceAdmin ==> path == "/admin/registro"
    ensures rol == "recolector" ==> path == "/recolector/registro"
    ensures rol != "admin" && rol != "recolector" ==> path == "/donante/registro"
  {
    assert "/admin/registro" + "?force=true" == "/admin/registro?force=true";
    if rol == "admin" then "/admin/registro" + (if forceAdmin then "?force=true" else "")
    else if rol == "recolector" then "/recolector/registro"
    else "/donante/registro"
  }

  /** The body of the creation request; `force` stands for the `force: true`
      property, which is present or absent. */
  datatype CreateBody = CreateBody(
    nombre: string, apellido: string, direccion: string, telefono: string,
    email: string, password: string, force: bool)

  function CreatePayload(u: NewUser, forceAdmin: bool): (b: CreateBody)
    ensures b.force <==> u.rol == "admin" && forceAdmin
    ensures b.nombre == u.nombre && b.apellido == u.apellido && b.direccion == u.direccion
    ensures b.telefono == u.telefono && b.email == u.email && b.password == u.password
  {
    var body := CreateBody(u.nombre, u.apellido, u.direccion, u.telefono, u.email, u.password, false);
    if u.rol == "admin" && forceAdmin then body.(force := true) else body
  }

  /** The body of a status switch: the negation of the account's status as
      JavaScript reads it, so a missing status becomes `true`. */
  function ToggledStatus(status: Option<bool>): (r: bool)
    ensures r <==> status != Some(true)
  {
    !(status.Some? && status.value)
  }

  /** Switching twice turns a set status back to itself and a missing one into `false`. */
  lemma ToggleTwice(status: Option<bool>)
    ensures ToggledStatus(Some(ToggledStatus(status))) == (status == Some(true))
  {
  }

  /** An account row of the users or collectors table. */
  datatype Account = Account(id: Option<string>, status: Option<bool>)

  datatype AdminCall =
    | Create(path: string, body: CreateBody, adminSecret: Option<string>)
    | LoadUsers
    | LoadCollectors
    | UpdatePassword(path: string, actual: string, nuevo: string)
    | SwitchStatus(path: string, status: bool)

  /** The `api` helper's bearer: the stored admin token, read once when the
      panel mounts (`|| ""`); an empty one sends no Authorization header. */
  function Bearer(st: Roles.Storage): Option<string> {
    var t := Roles.GetItem(st, Roles.AdminTokenKey);
    if Truthy(t) then Some("Bearer " + t.value) else None
  }

  /** The headers `api` sends with a call: the JSON content type, the bearer
      when there is one, then the call's own headers (only a creation
      request for an admin has one: the secret). */
  function Headers(bearer: Option<string>, c: AdminCall): seq<(string, string)> {
    [("Content-Type", "application/json")]
    + (if bearer.Some? then [("Authorization", bearer.value)] else [])
    + (if c.Create? && c.adminSecret.Some? then [("x-admin-secret", c.adminSecret.value)] else [])
  }

  /** Every call carries the stored admin token as bearer, and no
      Authorization header when none is stored; only a creation request with
      a secret carries "x-admin-secret". */
  lemma EveryCallCarriesBearer(st: Roles.Storage, c: AdminCall)
    ensures var t := Roles.GetItem(st, Roles.AdminTokenKey);
      Truthy(t) ==> ("Authorization", "Bearer " + t.value) in Headers(Bearer(st), c)
    ensures !Truthy(Roles.GetItem(st, Roles.AdminTokenKey)) ==>
      forall h :: h in Headers(Bearer(st), c) ==> h.0 != "Authorization"
    ensures (exists v :: ("x-admin-secret", v) in Headers(Bearer(st), c)) <==> c.Create? && c.adminSecret.Some?
  {
    var h := Headers(Bearer(st), c);
    if c.Create? && c.adminSecret.Some? {
      assert ("x-admin-secret", c.adminSecret.value) == h[|h| - 1];
    }
  }

  /** A toast the panel shows. */
  datatype Toast =
    | MissingFields
    | MissingSecret
    | Created(rol: string)
    | MissingPasswords
    | PasswordUpdated
    | StatusUpdated
    | RequestFailed(msg: Option<string>)

  const RequestFallback := "Error en la solicitud"

  /** The text of a toast; a failed request shows the answer's `msg`. */
  function ToastText(t: Toast): string {
    match t
    case MissingFields => "Completa todos los campos"
    case MissingSecret => "Falta VITE_ADMIN_SECRET para crear admins"
    case Created(rol) =>
      if rol == "admin" then "Admin creado (confirmar por correo)"
      else if rol == "recolector" then "Recolector creado (confirmar por correo)"
      else "Donante creado (confirmar por correo)"
    case MissingPasswords => "Completa ambos campos de contraseña"
    case PasswordUpdated => "Contraseña actualizada"
    case StatusUpdated => "Estado actualizado"
    case RequestFailed(msg) => Or(msg, RequestFallback)
  }

  /** The guards of `crearDonante`, in order: every field filled, then a
      configured secret when the new account is an admin. */
  function CreateRefusal(u: NewUser, env: ApiBase.Env): Option<Toast> {
    if MissingField(u) then Some(MissingFields)
    else if u.rol == "admin" && !Truthy(env.viteAdminSecret) then Some(MissingSecret)
    else None
  }

  /** A form passes the guards exactly when every field is filled and an
      admin account has a configured secret; an empty field is reported
      before a missing secret. */
  lemma CreateGuards(u: NewUser, env: ApiBase.Env)
    ensures CreateRefusal(u, env).None? <==>
              u.nombre != "" && u.apellido != "" && u.email != "" && u.telefono != ""
              && u.direccion != "" && u.password != ""
              && (u.rol == "admin" ==> env.viteAdminSecret.Some? && env.viteAdminSecret.value != "")
    ensures MissingField(u) ==> CreateRefusal(u, env) == Some(MissingFields)
    ensures CreateRefusal(u, env) == Some(MissingSecret) ==> u.rol == "admin"
  {
  }

  /** The creation request of a form that passed the guards. */
  function CreateRequest(u: NewUser, forceAdmin: bool, env: ApiBase.Env): AdminCall {
    Create(CreateTarget(u.rol, forceAdmin), CreatePayload(u, forceAdmin), Register.AdminSecretHeader(env, u.rol))
  }

  /** Every creation request that gets past the guards is complete, and an
      admin's always carries the secret header, while no other role's does;
      forcing only ever applies to an admin. */
  lemma SentRequestsAreAuthorised(u: NewUser, forceAdmin: bool, env: ApiBase.Env, st: Roles.Storage)
    requires CreateRefusal(u, env).None?
    ensures var r := CreateRequest(u, forceAdmin, env);
      && r.body.nombre != "" && r.body.apellido != "" && r.body.email != ""
      && r.body.telefono != "" && r.body.direccion != "" && r.body.password != ""
      && (r.adminSecret.Some? <==> u.rol == "admin")
      && (r.body.force ==> u.rol == "admin" && r.path == "/admin/registro?force=true")
    ensures var h := Headers(Bearer(st), CreateRequest(u, forceAdmin, env));
      && (u.rol == "admin" ==> h[|h| - 1] == ("x-admin-secret", env.viteAdminSecret.value))
      && (Truthy(Roles.GetItem(st, Roles.AdminTokenKey)) ==> h[1] == ("Authorization", Bearer(st).value))
  {
  }

  datatype PassForm = PassForm(passwordactual: string, passwordnuevo: string)

  class AdminPanel {
    var nuevoDonante: NewUser
    var forceAdmin: bool
    /** The loaded profile's `_id`; `None` before it loads or when it has none. */
    var perfilId: Option<string>
    var passForm: PassForm
    var loading: bool
    var calls: seq<AdminCall>
    var toasts: seq<Toast>
    /** The `api` helper's bearer, fixed at mount; every call in `calls` is
        sent with `Headers(bearer, call)`. */
    const bearer: Option<string>

    constructor(st: Roles.Storage)
      ensures bearer == Bearer(st)
      ensures nuevoDonante == EmptyNewUser && !forceAdmin && perfilId.None?
      ensures passForm == PassForm("", "") && !loading && calls == [] && toasts == []
    {
      nuevoDonante := EmptyNewUser;
      forceAdmin := false;
      perfilId := None;
      bearer := Bearer(st);
      passForm := PassForm("", "");
      loading := false;
      calls := [];
      toasts := [];
    }

    /** The role selector: any role other than admin clears the force box. */
    method SelectRole(r: string)
      modifies this
      ensures nuevoDonante == old(nuevoDonante).(rol := r)
      ensures forceAdmin == (old(forceAdmin) && r == "admin")
      ensures calls == old(calls) && toasts == old(toasts) && passForm == old(passForm)
      ensures perfilId == old(perfilId) && loading == old(loading)
    {
      nuevoDonante := nuevoDonante.(rol := r);
      if r != "admin" {
        forceAdmin := false;
      }
    }

    /** The force box, shown for the admin role only. */
    method SetForceAdmin(b: bool)
      modifies this
      ensures forceAdmin == b && nuevoDonante == old(nuevoDonante)
      ensures calls == old(calls) && toasts == old(toasts) && passForm == old(passForm)
      ensures perfilId == old(perfilId) && loading == old(loading)
    {
      forceAdmin := b;
    }

    method EditNewUser(u: NewUser)
      modifies this
      ensures nuevoDonante == u && forceAdmin == old(forceAdmin)
      ensures calls == old(calls) && toasts == old(toasts) && passForm == old(passForm)
      ensures perfilId == old(perfilId) && loading == old(loading)
    {
      nuevoDonante := u;
    }

    /** `crearDonante`: a refused form sends nothing; otherwise the account
        is created and, on success, the form resets and both tables reload. */
    method CreateUser(env: ApiBase.Env, resp: Outcome<()>)
      modifies this
      ensures var refusal := CreateRefusal(old(nuevoDonante), env);
        refusal.Some? ==> calls == old(calls) && toasts == old(toasts) + [refusal.value]
                          && nuevoDonante == old(nuevoDonante) && forceAdmin == old(forceAdmin) && loading == old(loading)
      ensures var request := CreateRequest(old(nuevoDonante), old(forceAdmin), env);
        CreateRefusal(old(nuevoDonante), env).None? && resp.Ok? ==>
          calls == old(calls) + [request, LoadUsers, LoadCollectors]
          && toasts == old(toasts) + [Created(old(nuevoDonante).rol)]
          && nuevoDonante == EmptyNewUser && !forceAdmin && !loading
      ensures var request := CreateRequest(old(nuevoDonante), old(forceAdmin), env);
        CreateRefusal(old(nuevoDonante), env).None? && resp.Failed? ==>
          calls == old(calls) + [request] && toasts == old(toasts) + [RequestFailed(resp.msg)]
          && nuevoDonante == old(nuevoDonante) && forceAdmin == old(forceAdmin) && !loading
      ensures perfilId == old(perfilId) && passForm == old(passForm)
    {
      var u := nuevoDonante;
      if MissingField(u) {
        toasts := toasts + [MissingFields];
        return;
      }
      var target := CreateTarget(u.rol, forceAdmin);
      var adminSecret := Or(env.viteAdminSecret, "");
      if u.rol == "admin" && adminSecret == "" {
        toasts := toasts + [MissingSecret];
        return;
      }
      loading := true;
      var payload := CreateBody(u.nombre, u.apellido, u.direccion, u.telefono, u.email, u.password, false);
      if u.rol == "admin" && forceAdmin {
        payload := payload.(force := true);
      }
      calls := calls + [Create(target, payload, Register.AdminSecretHeader(env, u.rol))];
      if resp.Ok? {
        toasts := toasts + [Created(u.rol)];
        nuevoDonante := EmptyNewUser;
        forceAdmin := false;
        calls := calls + [LoadUsers, LoadCollectors];
      } else {
        toasts := toasts + [RequestFailed(resp.msg)];
      }
      loading := false;
    }

    method SetPassForm(p: PassForm)
      modifies this
      ensures passForm == p && calls == old(calls) && toasts == old(toasts)
      ensures nuevoDonante == old(nuevoDonante) && forceAdmin == old(forceAdmin)
      ensures perfilId == old(perfilId) && loading == old(loading)
    {
      passForm := p;
    }

    /** The profile has loaded: its id is kept, and `loadPerfil`'s
        `finally` clears `loading`. */
    method ProfileLoaded(id: Option<string>)
      modifies this
      ensures perfilId == id && !loading
      ensures passForm == old(passForm) && calls == old(calls) && toasts == old(toasts)
      ensures nuevoDonante == old(nuevoDonante) && forceAdmin == old(forceAdmin)
    {
      perfilId := id;
      loading := false;
    }

    /** `actualizarPassword`: silent without a profile id, refused when a
        field is empty; the fields are cleared only after success. */
    method ChangePassword(resp: Outcome<()>)
      modifies this
      ensures !Truthy(old(perfilId)) ==> calls == old(calls) && toasts == old(toasts) && passForm == old(passForm)
      ensures Truthy(old(perfilId)) && (old(passForm).passwordactual == "" || old(passForm).passwordnuevo == "") ==>
        calls == old(calls) && toasts == old(toasts) + [MissingPasswords] && passForm == old(passForm)
      ensures Truthy(old(perfilId)) && old(passForm).passwordactual != "" && old(passForm).passwordnuevo != "" ==>
        && calls == old(calls) + [UpdatePassword("/admin/actualizarpassword/" + old(perfilId).value,
                                                 old(passForm).passwordactual, old(passForm).passwordnuevo)]
        && (resp.Ok? ==> passForm == PassForm("", "") && toasts == old(toasts) + [PasswordUpdated])
        && (resp.Failed? ==> passForm == old(passForm) && toasts == old(toasts) + [RequestFailed(resp.msg)])
      ensures loading == if Truthy(old(perfilId)) && old(passForm).passwordactual != "" && old(passForm).passwordnuevo != ""
                         then false else old(loading)
      ensures nuevoDonante == old(nuevoDonante) && forceAdmin == old(forceAdmin) && perfilId == old(perfilId)
    {
      if !Truthy(perfilId) {
        return;
      }
      var actual, nuevo := passForm.passwordactual, passForm.passwordnuevo;
      if actual == "" || nuevo == "" {
        toasts := toasts + [MissingPasswords];
        return;
      }
      loading := true;
      calls := calls + [UpdatePassword("/admin/actualizarpassword/" + perfilId.value, actual, nuevo)];
      if resp.Ok? {
        toasts := toasts + [PasswordUpdated];
        passForm := PassForm("", "");
      } else {
        toasts := toasts + [RequestFailed(resp.msg)];
      }
      loading := false;
    }

    /** `toggleStatus` (a user, `collector` false) and
        `toggleStatusRecolector` (a collector): send the negated status and
        reload that table on success; the reload sets `loading` until its
        own answer. */
    method SwitchAccountStatus(a: Account, collector: bool, resp: Outcome<()>)
      modifies this
      ensures var path := (if collector then "/admin/recolectores/" else "/admin/users/") + Show(a.id) + "/status";
        var switch := SwitchStatus(path, ToggledStatus(a.status));
        && (resp.Ok? ==> calls == old(calls) + [switch, if collector then LoadCollectors else LoadUsers]
                         && toasts == old(toasts) + [StatusUpdated])
        && (resp.Failed? ==> calls == old(calls) + [switch] && toasts == old(toasts) + [RequestFailed(resp.msg)])
      ensures nuevoDonante == old(nuevoDonante) && forceAdmin == old(forceAdmin)
      ensures passForm == old(passForm) && perfilId == old(perfilId)
      ensures loading == if resp.Ok? then true else old(loading)
    {
      var path := (if collector then "/admin/recolectores/" else "/admin/users/") + Show(a.id) + "/status";
      calls := calls + [SwitchStatus(path, ToggledStatus(a.status))];
      if resp.Ok? {
        toasts := toasts + [StatusUpdated];
        calls := calls + [if collector then LoadCollectors else LoadUsers];
        loading := true;
      } else {
        toasts := toasts + [RequestFailed(resp.msg)];
      }
    }
  }
}
