/** src/pages/Login.jsx: e-mail and password sign-in for the three roles.
    A successful answer leaves the session in localStorage, where the chat
    room and the dashboards read it back. */
module Login {
  import opened Js
  import opened Http
  import opened Roles
  import Json
  import Chat
  import ApiBase

  datatype LoginRequest = LoginRequest(url: string, email: string, password: string)

  function LoginUrl(apiBase: string, role: string): string {
    apiBase + Segment(role) + "/login"
  }

  const LoginFallback := "Error al iniciar sesión."

  /** The storage after a successful login: the token under the role's key
      when the answer carries one, then the user record with the role added,
      the role, the provider "local" and the password flag. */
  function SessionAfterLogin(st: Storage, role: string, data: Json.Object): Storage {
    var token := Json.Get(data, "token");
    var withToken := if Truthy(token) then st[TokenKey(role) := token.value] else st;
    withToken[UserKey := Json.Stringify(Json.Put(data, "role", role))][RoleKey := role]
             [AuthProviderKey := "local"][HasPasswordKey := "true"]
  }

  /** What a login writes, and that it writes nothing else. Without a token
      in the answer the role's token slot keeps whatever it held before. */
  lemma SessionAfterLoginWrites(st: Storage, role: string, data: Json.Object)
    ensures var r := SessionAfterLogin(st, role, data);
      && GetItem(r, RoleKey) == Some(role)
      && GetItem(r, AuthProviderKey) == Some("local")
      && GetItem(r, HasPasswordKey) == Some("true")
      && GetItem(r, UserKey) == Some(Json.Stringify(Json.Put(data, "role", role)))
    ensures var token := Json.Get(data, "token");
      Truthy(token) ==> GetItem(SessionAfterLogin(st, role, data), TokenKey(role)) == token
    ensures !Truthy(Json.Get(data, "token")) ==>
      GetItem(SessionAfterLogin(st, role, data), TokenKey(role)) == GetItem(st, TokenKey(role))
    ensures forall k :: k != TokenKey(role) && k != UserKey && k != RoleKey && k != AuthProviderKey && k != HasPasswordKey ==>
      GetItem(SessionAfterLogin(st, role, data), k) == GetItem(st, k)
    ensures Json.Get(Json.Put(data, "role", role), "role") == Some(role)
  {
    SessionKeysDistinct(role);
    var token := Json.Get(data, "token");
    var withToken := if Truthy(token) then st[TokenKey(role) := token.value] else st;
    assert GetItem(withToken, TokenKey(role)) == if Truthy(token) then token else GetItem(st, TokenKey(role));
  }

  /** After a login whose answer carries a token, the chat room finds that
      token without an override, whatever the role: the role stored picks
      the same key the login wrote. */
  lemma LoginTokenReachesChat(st: Storage, role: string, data: Json.Object)
    requires Truthy(Json.Get(data, "token"))
    ensures Chat.GetAuthToken(SessionAfterLogin(st, role, data)) == Json.Get(data, "token")
    ensures Chat.ResolveToken(None, SessionAfterLogin(st, role, data)) == Json.Get(data, "token")
  {
    var r := SessionAfterLogin(st, role, data);
    assert GetItem(r, RoleKey) == Some(role);
    assert TokenKey(role) != UserKey && TokenKey(role) != RoleKey;
    assert TokenKey(role) != AuthProviderKey && TokenKey(role) != HasPasswordKey;
  }

  class LoginPage {
    const apiBase: string
    var role: string
    var loading: bool
    /** Error toasts, oldest first. */
    var errors: seq<string>

    /** The page posts to `API_BASE`, built from the environment. */
    constructor(env: ApiBase.Env)
      ensures apiBase == ApiBase.ApiBase(env) && role == "donante" && !loading && errors == []
    {
      apiBase := ApiBase.ApiBase(env);
      role := "donante";
      loading := false;
      errors := [];
    }

    method SetRole(r: string)
      modifies this
      ensures role == r && loading == old(loading) && errors == old(errors)
    {
      role := r;
    }

    /** `loginUser`: post the credentials to the role's login path; on
        success write the session and schedule the role's dashboard. A
        failed answer writes nothing and stays on the page. */
    method LoginUser(email: string, password: string, resp: Outcome<Json.Object>, st: Storage)
      returns (request: LoginRequest, after: Storage, redirect: Option<Redirect>)
      modifies this
      ensures request == LoginRequest(LoginUrl(apiBase, role), email, password)
      ensures resp.Failed? ==> after == st && redirect.None? && errors == old(errors) + [FailureText(resp, LoginFallback)]
      ensures resp.Ok? ==> after == SessionAfterLogin(st, role, resp.body)
                           && redirect == Some(Redirect(Segment(role), 2000, false)) && errors == old(errors)
      ensures !loading && role == old(role)
    {
      request := LoginRequest(LoginUrl(apiBase, role), email, password);
      loading := true;
      after := st;
      if resp.Failed? {
        errors := errors + [FailureText(resp, LoginFallback)];
        redirect := None;
      } else {
        var data := resp.body;
        var token := Json.Get(data, "token");
        if Truthy(token) {
          after := after[TokenKey(role) := token.value];
        }
        after := after[UserKey := Json.Stringify(Json.Put(data, "role", role))];
        after := after[RoleKey := role];
        after := after[AuthProviderKey := "local"];
        after := after[HasPasswordKey := "true"];
        redirect := Some(Redirect(Segment(role), 2000, false));
      }
      loading := false;
    }
  }
}
