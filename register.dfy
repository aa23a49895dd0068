/** src/pages/Register.jsx: sign-up for the three roles. The form is checked
    by the register schema; only a valid form reaches `registerUser`, which
    receives the schema's cast (trimmed) values. */
module Register {
  import opened Js
  import opened Http
  import opened Roles
  import opened RegisterSchema
  import ApiBase

  const InitialRole := "donante"
  const RegisterFallback := "Error al registrar usuario"
  const RegisteredText := "Registro exitoso. Revisa tu correo para confirmar tu cuenta."

  /** The sign-up base: VITE_BACKEND_URL or the local default, one trailing
      slash dropped. VITE_API_URL is not consulted and "/api" is not added. */
  function RegisterBase(env: ApiBase.Env): string {
    DropTrailingSlash(Or(env.viteBackendUrl, ApiBase.DefaultApi))
  }

  function RegisterUrl(env: ApiBase.Env, role: string): string {
    RegisterBase(env) + Segment(role) + "/registro"
  }

  /** The `x-admin-secret` header: sent for the admin role only, and only
      when the secret is set and non-empty. */
  function AdminSecretHeader(env: ApiBase.Env, role: string): (h: Option<string>)
    ensures h.Some? <==> role == "admin" && Truthy(env.viteAdminSecret)
    ensures h.Some? ==> h == env.viteAdminSecret
  {
    var secret := Or(env.viteAdminSecret, "");
    if role == "admin" && secret != "" then Some(secret) else None
  }

  /** The sign-up base agrees with `API_BASE` only when VITE_API_URL is unset
      and the back-end URL already ends in "/api"; with the default it does. */
  lemma RegisterBaseVsApiBase(env: ApiBase.Env)
    requires !Truthy(env.viteApiUrl)
    ensures RegisterBase(env) == ApiBase.ApiBase(env) <==> EndsWith(RegisterBase(env), "/api")
    ensures !Truthy(env.viteBackendUrl) ==> RegisterBase(env) == ApiBase.ApiBase(env)
  {
    var b := RegisterBase(env);
    assert ApiBase.RawBase(env) == b;
    if !EndsWith(b, "/api") {
      assert |ApiBase.ApiBase(env)| == |b| + 4;
    }
    if !Truthy(env.viteBackendUrl) {
      assert EndsWith(ApiBase.DefaultApi, "/api");
      assert b == ApiBase.DefaultApi;
    }
  }

  datatype RegisterRequest = RegisterRequest(url: string, adminSecret: Option<string>, payload: RegisterForm)

  datatype RegisterResult =
    | Rejected(errors: seq<FieldError>)
    | NotRegistered(message: string)
    | Registered(message: string, redirect: Redirect)

  class RegisterPage {
    var role: string
    var loading: bool

    constructor()
      ensures role == InitialRole && !loading
    {
      role := InitialRole;
      loading := false;
    }

    method SetRole(r: string)
      modifies this
      ensures role == r && loading == old(loading)
    {
      role := r;
    }

    /** Submitting the form: an invalid form shows the schema's errors and
        sends nothing; a valid one posts its six cast fields to the role's
        sign-up path. `resp` is the answer, carrying the body's `msg`. */
    method Submit(form: RegisterForm, isEmail: string -> bool, env: ApiBase.Env, resp: Outcome<Option<string>>)
      returns (result: RegisterResult, request: Option<RegisterRequest>)
      modifies this
      ensures !Valid(form, isEmail) ==> result == Rejected(Errors(form, isEmail)) && request.None?
      ensures Valid(form, isEmail) ==>
        request == Some(RegisterRequest(RegisterUrl(env, role), AdminSecretHeader(env, role), Cast(form)))
      ensures Valid(form, isEmail) && resp.Failed? ==> result == NotRegistered(FailureText(resp, RegisterFallback))
      ensures Valid(form, isEmail) && resp.Ok? ==>
        result == Registered(Or(resp.body, RegisteredText), Redirect("/login", 3000, false))
      ensures !loading && role == old(role)
    {
      if !Valid(form, isEmail) {
        result := Rejected(Errors(form, isEmail));
        request := None;
        loading := false;
        return;
      }
      var data := Cast(form);
      var payload := RegisterForm(data.nombre, data.apellido, data.direccion, data.telefono, data.email, data.password);
      loading := true;
      request := Some(RegisterRequest(RegisterUrl(env, role), AdminSecretHeader(env, role), payload));
      if resp.Failed? {
        result := NotRegistered(FailureText(resp, RegisterFallback));
      } else {
        result := Registered(Or(resp.body, RegisteredText), Redirect("/login", 3000, false));
      }
      loading := false;
    }
  }
}
