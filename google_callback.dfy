/** src/pages/GoogleCallback.jsx: the page the back-end redirects to after a
    Google sign-in, with `token`, `rol` and possibly `msg` in the query
    string. */
module GoogleCallback {
  import opened Js
  import opened Roles
  import Chat

  /** `URLSearchParams` of the location: a parameter's value, or absent. */
  type Query = map<string, string>

  const NoTokenText := "No se recibió el token de Google."

  /** The storage after a sign-in: the token under the role's key, then the role as given. */
  function SessionAfterCallback(st: Storage, token: string, rol: string): Storage {
    st[TokenKey(rol) := token][RoleKey := rol]
  }

  /** Only the role's token slot and the role change; an unknown role's
      token lands in the donor slot while the raw role is stored. */
  lemma SessionAfterCallbackWrites(st: Storage, token: string, rol: string)
    ensures GetItem(SessionAfterCallback(st, token, rol), TokenKey(rol)) == Some(token)
    ensures GetItem(SessionAfterCallback(st, token, rol), RoleKey) == Some(rol)
    ensures forall k :: k != TokenKey(rol) && k != RoleKey ==>
      GetItem(SessionAfterCallback(st, token, rol), k) == GetItem(st, k)
    ensures !KnownRole(rol) ==> GetItem(SessionAfterCallback(st, token, rol), DonanteTokenKey) == Some(token)
  {
  }

  /** The chat room reads back the token a Google sign-in stored. */
  lemma CallbackTokenReachesChat(st: Storage, token: string, rol: string)
    ensures Chat.GetAuthToken(SessionAfterCallback(st, token, rol)) == Some(token)
  {
    assert TokenKey(rol) != RoleKey;
  }

  datatype CallbackResult = ShowError(message: string) | SignedIn(redirect: Redirect)

  /** The callback effect: an error from the back-end without a token is
      shown as it is; a missing token is an error; otherwise the session is
      stored and the role's dashboard replaces this page 1200 ms later. */
  method HandleCallback(params: Query, st: Storage) returns (result: CallbackResult, after: Storage)
    ensures var token := GetItem(params, "token");
      !Truthy(token) ==> after == st && result.ShowError?
    ensures var token := GetItem(params, "token"); var msg := GetItem(params, "msg");
      Truthy(msg) && !Truthy(token) ==> result == ShowError(msg.value)
    ensures var token := GetItem(params, "token"); var msg := GetItem(params, "msg");
      !Truthy(msg) && !Truthy(token) ==> result == ShowError(NoTokenText)
    ensures var token := GetItem(params, "token"); var rol := Or(GetItem(params, "rol"), "donante");
      Truthy(token) ==> after == SessionAfterCallback(st, token.value, rol)
                        && result == SignedIn(Redirect(Segment(rol), 1200, true))
  {
    var token := GetItem(params, "token");
    var rol := Or(GetItem(params, "rol"), "donante");
    var msg := GetItem(params, "msg");
    after := st;
    if Truthy(msg) && !Truthy(token) {
      result := ShowError(msg.value);
      return;
    }
    if !Truthy(token) {
      result := ShowError(NoTokenText);
      return;
    }
    after := after[TokenKey(rol) := token.value];
    after := after[RoleKey := rol];
    result := SignedIn(Redirect(Segment(rol), 1200, true));
  }
}
